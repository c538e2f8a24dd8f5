/** The reference core: one instruction per cycle, repeating whatever the bus told it
    to wait for. Its results do not depend on the pattern of Busy answers. */
module Reference {
  import opened Wrappers
  import opened Isa
  import opened CsrState
  import opened CpuBus
  import opened Mmu
  import opened Exec
  import opened Settle
  import opened WalkerRuns

  datatype Core = Core(machine: Computer, pending: Option<Decoded>)

  datatype CoreCycle = CoreCycle(core: Core, retired: nat, trap: Option<Trap>)

  function ResetCore(vector: Word, bus: Bus): Core { Core(Computer(ResetHart(vector), RESET_WALKER, bus), None) }

  predicate WellPending(core: Core) { core.pending.Some? ==> WellDecoded(core.pending.value) }

  /* ---------- one cycle ---------- */

  function Synced(core: Core, lines: set<Interrupt>): Core {
    core.(machine := core.machine.(hart := core.machine.hart.(csrs := SyncInterrupts(core.machine.hart.csrs, lines))))
  }

  function InterruptDue(core: Core, busBusy: bool): Option<Interrupt> {
    if core.pending.None? && !busBusy then PendingInterrupt(core.machine.hart.csrs, core.machine.hart.privilege)
    else None
  }

  function TrapCycle(core: Core, trap: Trap): CoreCycle {
    var e := Trapped(core.machine, trap, core.machine.hart.pc);
    CoreCycle(core.(machine := e.computer), 0, Some(trap))
  }

  function Waiting(core: Core): CoreCycle { CoreCycle(core, 0, None) }

  /** What a cycle does before an instruction runs: hand one on, or end the cycle. */
  datatype FrontEnd = Issue(machine: Computer, decoded: Decoded) | Done(cycle: CoreCycle)

  function Fetch(m: Computer): (f: FrontEnd)
    ensures f.Issue? ==> WellDecoded(f.decoded)
  {
    var pc := m.hart.pc;
    var t := Translate(m.walker, m.bus, MakeRequest(m.hart.csrs, m.hart.privilege, pc, InstructionAccess));
    var m1 := m.(walker := t.walker, bus := t.bus);
    match t.result
    case Stall => Done(Waiting(Core(m1, None)))
    case Faulted(trap) => Done(TrapCycle(Core(m1, None), trap))
    case PhysicalAddress(pa) =>
      var r := Fetch32(t.bus, pa);
      var m2 := m1.(bus := r.bus);
      match r.answer
      case Err(fault) =>
        if fault.Busy? then Done(Waiting(Core(m2, None)))
        else Done(TrapCycle(Core(m2, None), FaultTrap(fault, pc, InstructionAccess)))
      case Ok(raw) =>
        match Decode(raw, pc)
        case None => Done(TrapCycle(Core(m2, None), ExceptionTrap(IllegalInstruction(raw))))
        case Some(d) => Issue(m2, d)
  }

  function Begin(core: Core, lines: set<Interrupt>, busBusy: bool): (f: FrontEnd)
    requires WellPending(core)
    ensures f.Issue? ==> WellDecoded(f.decoded)
  {
    var c := Synced(core, lines);
    var due := InterruptDue(c, busBusy);
    if due.Some? then Done(TrapCycle(c, InterruptTrap(due.value)))
    else if c.machine.hart.halted then Done(Waiting(c))
    else if c.pending.Some? then Issue(c.machine, c.pending.value)
    else Fetch(c.machine)
  }

  function Run(m: Computer, d: Decoded): CoreCycle
    requires WellDecoded(d)
  {
    var e := ExecuteDecoded(m, d);
    CoreCycle(Core(e.computer, if e.retired == 0 && e.trap.None? then Some(d) else None), e.retired, e.trap)
  }

  function NextCycle(core: Core, lines: set<Interrupt>, busBusy: bool): CoreCycle
    requires WellPending(core)
  {
    match Begin(core, lines, busBusy)
    case Done(cycle) => cycle
    case Issue(m, d) => Run(m, d)
  }

  /* ---------- what every cycle keeps ---------- */

  /** Only a load or a store is ever left pending, register zero reads as zero, and the
      walker's bookkeeping holds. */
  predicate CoreOk(core: Core) {
    WalkReady(core.machine.walker) && core.machine.hart.regs[0] == 0 && WellPending(core) &&
    (core.pending.Some? ==> UsesMemory(core.pending.value) && RdMatchesKind(core.pending.value))
  }

  lemma ResetCoreOk(vector: Word, bus: Bus)
    ensures CoreOk(ResetCore(vector, bus))
  {
    ResetReady();
  }

  lemma FetchKeeps(m: Computer)
    requires WalkReady(m.walker) && m.hart.regs[0] == 0
    ensures match Fetch(m)
            case Done(cycle) => CoreOk(cycle.core)
            case Issue(m2, d) => WalkReady(m2.walker) && m2.walker.active.None? && m2.hart == m.hart && RdMatchesKind(d)
  {
    hide Translate, MakeRequest, WalkReady, Load32, FaultTrap, EnterTrap;
    var request := MakeRequest(m.hart.csrs, m.hart.privilege, m.hart.pc, InstructionAccess);
    TranslateSettles(m.walker, m.bus, request);
    ReadyEndsWalk(m.walker, m.bus, request);
    assert forall raw, pc :: Decode(raw, pc).Some? ==> RdMatchesKind(Decode(raw, pc).value);
    hide Decode;
  }

  lemma ReadyEndsWalk(w: Walker, bus: Bus, request: Request)
    requires WalkReady(w)
    ensures var t := Translate(w, bus, request);
            t.result.Stall? <==> t.walker.active.Some?
  {
    TranslateEndsWalk(w, bus, request);
  }

  lemma RunMemoryKeeps(m: Computer, d: Decoded)
    requires WalkReady(m.walker) && m.hart.regs[0] == 0 && RdMatchesKind(d) && UsesMemory(d)
    ensures CoreOk(Run(m, d).core)
  {
    hide EffectiveAddress, Following, LoadValue, StoreValue, Translate, MakeRequest, FaultTrap, EnterTrap, WalkReady, Operand;
    var access := if d.kind.Load? then LoadAccess else StoreAccess;
    var va := EffectiveAddress(Operand(m.hart.regs, d.rs1), d.imm);
    TranslateSettles(m.walker, m.bus, MakeRequest(m.hart.csrs, m.hart.privilege, va, access));
  }

  lemma RunSystemKeeps(m: Computer, d: Decoded)
    requires WalkReady(m.walker) && m.hart.regs[0] == 0 && d.kind.System? && m.walker.active.None?
    ensures CoreOk(Run(m, d).core)
  {
    hide Following, SfenceIllegal, WfiIllegal, SretIllegal, FlushFence, FenceFromOperands, EnterTrap,
         ReturnFromMachineTrap, ReturnFromSupervisorTrap, Illegal, EcallException, Translate, Operand, WalkReady;
    FenceKeepsReady(m.walker,
      FenceFromOperands(d.rs1, Operand(m.hart.regs, d.rs1), d.rs2, Operand(m.hart.regs, d.rs2)));
  }

  lemma RunIntegerKeeps(m: Computer, d: Decoded)
    requires WalkReady(m.walker) && m.hart.regs[0] == 0 && WellDecoded(d) && !UsesMemory(d) && !d.kind.System?
    ensures CoreOk(Run(m, d).core)
  {
    hide Alu, ImmediateRhs, BranchTaken, EffectiveAddress, Following, Even, ExecuteCsr, CsrIllegal, Write, EnterTrap,
         Illegal, Translate, Operand, WalkReady;
  }

  lemma RunKeeps(m: Computer, d: Decoded)
    requires WalkReady(m.walker) && m.hart.regs[0] == 0 && WellDecoded(d) && RdMatchesKind(d)
    requires m.walker.active.Some? ==> UsesMemory(d)
    ensures CoreOk(Run(m, d).core)
  {
    hide Run, CoreOk, WalkReady;
    if UsesMemory(d) {
      RunMemoryKeeps(m, d);
    } else if d.kind.System? {
      RunSystemKeeps(m, d);
    } else {
      RunIntegerKeeps(m, d);
    }
  }

  lemma FenceKeepsReady(w: Walker, f: TranslationFence)
    requires WalkReady(w) && w.active.None?
    ensures WalkReady(FlushFence(w, f))
  {
  }

  /** Whenever an instruction other than a load or store runs, SFENCE.VMA included, no
      page walk is in progress; and every cycle keeps the core's bookkeeping. */
  lemma FencesSeeNoWalk(core: Core, lines: set<Interrupt>, busBusy: bool)
    requires CoreOk(core)
    ensures CoreOk(NextCycle(core, lines, busBusy).core)
    ensures var f := Begin(core, lines, busBusy);
            f.Issue? && !UsesMemory(f.decoded) ==> f.machine.walker.active.None?
  {
    hide Fetch, Run, WalkReady, SyncInterrupts, PendingInterrupt, EnterTrap;
    var c := Synced(core, lines);
    FetchKeeps(c.machine);
    match Begin(core, lines, busBusy) {
      case Done(_) =>
      case Issue(m, d) => RunKeeps(m, d);
    }
  }

  /* ---------- stalls do not matter ---------- */

  function Zero(m: Computer): Computer { m.(bus := ZeroWait(m.bus)) }

  function ZeroCore(core: Core): Core { core.(machine := Zero(core.machine)) }

  predicate SameMachine(m: Computer, z: Computer) {
    m.hart == z.hart && m.walker == z.walker && m.bus.mem == z.bus.mem && m.bus.readOnly == z.bus.readOnly
  }

  predicate SameExecuted(e: Executed, z: Executed) {
    SameMachine(e.computer, z.computer) && e.retired == z.retired && e.trap == z.trap
  }

  predicate SameCycle(c: CoreCycle, z: CoreCycle) {
    SameMachine(c.core.machine, z.core.machine) && c.core.pending == z.core.pending &&
    c.retired == z.retired && c.trap == z.trap
  }

  predicate Unfinished(e: Executed) { e.retired == 0 && e.trap.None? }

  lemma SameZero(m: Computer, z: Computer)
    requires SameMachine(m, z)
    ensures Zero(m) == Zero(z)
  {
  }

  /** Two buses over the same memory, the second without wait states. */
  ghost predicate Quiet(bus: Bus, z: Bus) { z.busy == NEVER && z.mem == bus.mem && z.readOnly == bus.readOnly }

  lemma ReadQuiet(bus: Bus, z: Bus, kind: LoadKind, a: Word)
    requires Quiet(bus, z)
    ensures var r, s := LoadValue(bus, kind, a), LoadValue(z, kind, a);
            Quiet(r.bus, s.bus) && r.bus.readOnly == bus.readOnly && r.bus.mem == bus.mem && r.bus.busy == bus.busy && !s.answer.Waits() &&
            ((r.answer.Waits() && bus.busy != NEVER) || r.answer == s.answer)
  {
    hide CellOf, WordAligned, HalfAligned, Extract, SignExtend;
  }

  lemma WriteQuiet(bus: Bus, z: Bus, kind: StoreKind, a: Word, v: Word)
    requires Quiet(bus, z)
    ensures var r, s := StoreValue(bus, kind, a, v), StoreValue(z, kind, a, v);
            r.bus.readOnly == bus.readOnly && r.bus.busy == bus.busy && !s.answer.Waits() &&
            s.bus.readOnly == bus.readOnly && s.bus.busy == NEVER &&
            if r.answer.Waits() then r.bus.mem == bus.mem && bus.busy != NEVER else r.answer == s.answer && Quiet(r.bus, s.bus)
  {
    hide CellOf, WordAligned, HalfAligned, Placed, Merge;
  }

  /** What a translation on any bus has to do with the same one on the zero-wait bus. */
  ghost predicate TranslationQuiet(w: Walker, bus: Bus, request: Request) {
    var t, z := Translate(w, bus, request), Translate(w, ZeroWait(bus), request);
    !z.result.Stall? && z.bus.busy == NEVER && t.bus.readOnly == bus.readOnly && t.bus.busy == bus.busy &&
    (t.result.Stall? ==> bus.busy != NEVER) &&
    if t.result.Stall? then
      var y := Translate(t.walker, ZeroWait(t.bus), request);
      SameTranslated(y, z) && y.bus.busy == NEVER
    else SameTranslated(t, z) &&
         (t.result.PhysicalAddress? ==>
            forall later: Bus :: Translate(t.walker, later, request) == Translated(t.walker, later, t.result))
  }

  lemma TranslationIsQuiet(w: Walker, bus: Bus, request: Request)
    requires WalkReady(w)
    ensures TranslationQuiet(w, bus, request)
  {
    hide Translate, WalkReady;
    TranslateIgnoresStalls(w, bus, request);
    ZeroWaitIdempotent(bus);
    TranslateIgnoresStalls(w, ZeroWait(bus), request);
    TranslateSettles(w, bus, request);
    var t := Translate(w, bus, request);
    ZeroWaitIdempotent(t.bus);
    TranslateIgnoresStalls(t.walker, ZeroWait(t.bus), request);
  }

  /** What an execution on any bus has to do with the same one on the zero-wait bus. */
  ghost predicate ExecutionQuiet(m: Computer, d: Decoded)
    requires WellDecoded(d)
  {
    var e, z := ExecuteDecoded(m, d), ExecuteDecoded(Zero(m), d);
    !Unfinished(z) && e.computer.bus.busy == m.bus.busy &&
    if Unfinished(e) then
      m.bus.busy != NEVER && e.computer.hart == m.hart && SameExecuted(ExecuteDecoded(Zero(e.computer), d), z)
    else SameExecuted(e, z)
  }

  lemma LoadIsQuiet(m: Computer, d: Decoded)
    requires WalkReady(m.walker) && d.kind.Load?
    ensures ExecutionQuiet(m, d)
  {
    hide EffectiveAddress, Following, LoadValue, Translate, MakeRequest, FaultTrap, EnterTrap, WriteReg, Operand, WalkReady,
         ExecuteStore, ExecuteSystem, ExecuteCsrInstruction, Alu, BranchTaken, ImmediateRhs, Even;
    var va := EffectiveAddress(Operand(m.hart.regs, d.rs1), d.imm);
    var request := MakeRequest(m.hart.csrs, m.hart.privilege, va, LoadAccess);
    TranslationIsQuiet(m.walker, m.bus, request);
    var t, z := Translate(m.walker, m.bus, request), Translate(m.walker, ZeroWait(m.bus), request);
    if t.result.PhysicalAddress? {
      ReadQuiet(t.bus, z.bus, d.kind.load, t.result.physical);
      var r := LoadValue(t.bus, d.kind.load, t.result.physical);
      ReadQuiet(z.bus, ZeroWait(r.bus), d.kind.load, t.result.physical);
    } else if t.result.Stall? && z.result.PhysicalAddress? {
      var y := Translate(t.walker, ZeroWait(t.bus), request);
      ReadQuiet(y.bus, z.bus, d.kind.load, z.result.physical);
      ReadQuiet(z.bus, y.bus, d.kind.load, z.result.physical);
    }
  }

  lemma StoreIsQuiet(m: Computer, d: Decoded)
    requires WalkReady(m.walker) && d.kind.Store?
    ensures ExecutionQuiet(m, d)
  {
    hide EffectiveAddress, Following, StoreValue, Translate, MakeRequest, FaultTrap, EnterTrap, Operand, WalkReady,
         ExecuteLoad, ExecuteSystem, ExecuteCsrInstruction, Alu, BranchTaken, ImmediateRhs, Even, WriteReg;
    var va, value := EffectiveAddress(Operand(m.hart.regs, d.rs1), d.imm), Operand(m.hart.regs, d.rs2);
    var request := MakeRequest(m.hart.csrs, m.hart.privilege, va, StoreAccess);
    TranslationIsQuiet(m.walker, m.bus, request);
    var t, z := Translate(m.walker, m.bus, request), Translate(m.walker, ZeroWait(m.bus), request);
    if t.result.PhysicalAddress? {
      WriteQuiet(t.bus, z.bus, d.kind.store, t.result.physical, value);
      var r := StoreValue(t.bus, d.kind.store, t.result.physical, value);
      if r.answer.Waits() {
        WriteQuiet(z.bus, ZeroWait(r.bus), d.kind.store, t.result.physical, value);
        WriteQuiet(ZeroWait(r.bus), z.bus, d.kind.store, t.result.physical, value);
      }
    } else if t.result.Stall? && z.result.PhysicalAddress? {
      var y := Translate(t.walker, ZeroWait(t.bus), request);
      WriteQuiet(y.bus, z.bus, d.kind.store, z.result.physical, value);
      WriteQuiet(z.bus, y.bus, d.kind.store, z.result.physical, value);
    }
  }

  /** Instructions that use no memory see the bus only to pass it on. */
  lemma SystemIsQuiet(m: Computer, d: Decoded)
    requires d.kind.System?
    ensures ExecutionQuiet(m, d)
  {
    hide Following, SfenceIllegal, WfiIllegal, SretIllegal, FlushFence, FenceFromOperands, EnterTrap,
         ReturnFromMachineTrap, ReturnFromSupervisorTrap, Illegal, EcallException, Translate, Operand;
  }

  lemma IntegerIsQuiet(m: Computer, d: Decoded)
    requires WellDecoded(d) && !UsesMemory(d) && !d.kind.System?
    ensures ExecutionQuiet(m, d)
  {
    hide Alu, ImmediateRhs, BranchTaken, EffectiveAddress, Following, Even, ExecuteCsr, CsrIllegal, Write, EnterTrap,
         Illegal, Translate, WriteReg, Operand;
  }

  lemma ExecutionIsQuiet(m: Computer, d: Decoded)
    requires WalkReady(m.walker) && WellDecoded(d)
    ensures ExecutionQuiet(m, d)
  {
    hide ExecutionQuiet, WalkReady;
    if d.kind.Load? {
      LoadIsQuiet(m, d);
    } else if d.kind.Store? {
      StoreIsQuiet(m, d);
    } else if d.kind.System? {
      SystemIsQuiet(m, d);
    } else {
      IntegerIsQuiet(m, d);
    }
  }

  /* ---------- whole cycles ---------- */

  predicate SameFront(f: FrontEnd, z: FrontEnd) {
    match (f, z)
    case (Issue(m, d), Issue(n, e)) => SameMachine(m, n) && d == e
    case (Done(c), Done(e)) => SameCycle(c, e)
    case _ => false
  }

  predicate Waits(f: FrontEnd) { f.Done? && f.cycle.retired == 0 && f.cycle.trap.None? }

  ghost predicate FetchQuiet(m: Computer) {
    var f, z := Fetch(m), Fetch(Zero(m));
    !Waits(z) && (z.Issue? ==> z.machine.bus.busy == NEVER) &&
    if Waits(f) then
      var n := f.cycle.core.machine;
      f.cycle.core.pending.None? && n.hart == m.hart && SameFront(Fetch(Zero(n)), z) &&
      (Fetch(Zero(n)).Issue? ==> Fetch(Zero(n)).machine.bus.busy == NEVER)
    else SameFront(f, z)
  }

  lemma FetchIsQuiet(m: Computer)
    requires WalkReady(m.walker)
    ensures FetchQuiet(m)
  {
    hide Translate, MakeRequest, FaultTrap, EnterTrap, Decode, WalkReady, LoadValue;
    var request := MakeRequest(m.hart.csrs, m.hart.privilege, m.hart.pc, InstructionAccess);
    TranslationIsQuiet(m.walker, m.bus, request);
    var t, z := Translate(m.walker, m.bus, request), Translate(m.walker, ZeroWait(m.bus), request);
    if t.result.PhysicalAddress? {
      FetchReadQuiet(t.bus, z.bus, t.result.physical);
      var r := Fetch32(t.bus, t.result.physical);
      FetchReadQuiet(z.bus, ZeroWait(r.bus), t.result.physical);
      FetchReadQuiet(ZeroWait(r.bus), z.bus, t.result.physical);
    } else if z.result.PhysicalAddress? {
      var y := Translate(t.walker, ZeroWait(t.bus), request);
      FetchReadQuiet(y.bus, z.bus, z.result.physical);
      FetchReadQuiet(z.bus, y.bus, z.result.physical);
    }
    hide Load32;
  }

  lemma FetchReadQuiet(bus: Bus, z: Bus, a: Word)
    requires Quiet(bus, z)
    ensures var r, s := Fetch32(bus, a), Fetch32(z, a);
            Quiet(r.bus, s.bus) && r.bus.mem == bus.mem && r.bus.readOnly == bus.readOnly && r.bus.busy == bus.busy &&
            !s.answer.Waits() && ((r.answer.Waits() && bus.busy != NEVER) || r.answer == s.answer)
  {
    hide CellOf, WordAligned;
  }

  /** Running the same instruction from the same machine on two buses, the second
      without wait states. */
  lemma RunIsQuiet(m: Computer, n: Computer, d: Decoded)
    requires WalkReady(m.walker) && WellDecoded(d) && SameMachine(m, n) && n.bus.busy == NEVER
    ensures var c, z := Run(m, d), Run(n, d);
            !(z.retired == 0 && z.trap.None?) && z.core.pending.None? &&
            if c.retired == 0 && c.trap.None? then
              c.core.pending == Some(d) && c.core.machine.hart == m.hart && SameCycle(Run(Zero(c.core.machine), d), z)
            else SameCycle(c, z)
  {
    hide ExecuteDecoded, WalkReady;
    ExecutionIsQuiet(m, d);
    ExecutionIsQuiet(n, d);
    SameZero(m, n);
  }

  /** The bus may hide an interrupt from one cycle only if there is none to hide. */
  predicate NothingHidden(core: Core, lines: set<Interrupt>, busBusy: bool) {
    busBusy ==> InterruptDue(Synced(core, lines), false).None?
  }

  predicate Stalled(c: CoreCycle) { c.retired == 0 && c.trap.None? && !c.core.machine.hart.halted }

  /** Sampling the lines forgets what was sampled before. */
  lemma SyncOverwrites(c: Csrs, before: set<Interrupt>, lines: set<Interrupt>)
    ensures SyncInterrupts(SyncInterrupts(c, before), lines) == SyncInterrupts(c, lines)
  {
    RefreshOverwrites(c.machine.mip, c.softwarePending, LineBits(before), LineBits(lines));
    hide LineBits;
  }

  lemma SyncTwice(c: Csrs, lines: set<Interrupt>)
    ensures SyncInterrupts(SyncInterrupts(c, lines), lines) == SyncInterrupts(c, lines)
  {
    SyncOverwrites(c, lines, lines);
  }

  lemma RefreshOverwrites(mip: Word, software: Word, before: Word, external: Word)
    ensures var once := (mip & !MANAGED_INTERRUPT_MASK) | (software & MIP_WRITABLE_MASK)
                        | (before & MANAGED_INTERRUPT_MASK);
            (once & !MANAGED_INTERRUPT_MASK) | (software & MIP_WRITABLE_MASK) | (external & MANAGED_INTERRUPT_MASK)
            == (mip & !MANAGED_INTERRUPT_MASK) | (software & MIP_WRITABLE_MASK) | (external & MANAGED_INTERRUPT_MASK)
  {
  }

  lemma StepIgnoresStalls(core: Core, lines: set<Interrupt>, busBusy: bool)
    requires CoreOk(core) && NothingHidden(core, lines, busBusy)
    ensures var c, z := NextCycle(core, lines, busBusy), NextCycle(ZeroCore(core), lines, false);
            !Stalled(z) && WellPending(c.core) &&
            if Stalled(c) then SameCycle(NextCycle(ZeroCore(c.core), lines, false), z) else SameCycle(c, z)
  {
    hide WalkReady, SyncInterrupts, PendingInterrupt, EnterTrap, Fetch, Run;
    FencesSeeNoWalk(core, lines, busBusy);
    SyncTwice(core.machine.hart.csrs, lines);
    var s := Synced(core, lines);
    var due := InterruptDue(s, false);
    if due.None? && !s.machine.hart.halted {
      if s.pending.Some? {
        RunIsQuiet(s.machine, Zero(s.machine), s.pending.value);
      } else {
        FetchIsQuiet(s.machine);
        FetchKeeps(s.machine);
        var f, z := Fetch(s.machine), Fetch(Zero(s.machine));
        if f.Issue? {
          RunIsQuiet(f.machine, z.machine, f.decoded);
          SameZero(f.machine, z.machine);
        } else if Waits(f) && z.Issue? {
          var y := Fetch(Zero(f.cycle.core.machine));
          FetchKeeps(Zero(f.cycle.core.machine));
          RunIsQuiet(y.machine, z.machine, z.decoded);
          RunIsQuiet(z.machine, y.machine, z.decoded);
        }
      }
    }
  }

  /* ---------- whole runs ---------- */

  /** What software can see of a cycle that did something. */
  datatype Snapshot = Snapshot(hart: Hart, mem: Memory, retired: nat, trap: Option<Trap>)

  function Observed(c: CoreCycle): Snapshot {
    Snapshot(c.core.machine.hart, c.core.machine.bus.mem, c.retired, c.trap)
  }

  /** The cycles of a run that were not stalls; `hidden[i]` says whether the bus calls
      itself busy in cycle i. */
  function Snapshots(core: Core, lines: set<Interrupt>, hidden: seq<bool>): seq<Snapshot>
    requires CoreOk(core)
    decreases |hidden|
  {
    if hidden == [] then [] else
      FencesSeeNoWalk(core, lines, hidden[0]);
      var c := NextCycle(core, lines, hidden[0]);
      (if Stalled(c) then [] else [Observed(c)]) + Snapshots(c.core, lines, hidden[1..])
  }

  /** The first `n` cycles of the machine whose bus never makes it wait. */
  function ZeroWaitSnapshots(core: Core, lines: set<Interrupt>, n: nat): seq<Snapshot>
    requires CoreOk(core)
    decreases n
  {
    if n == 0 then [] else
      FencesSeeNoWalk(ZeroCore(core), lines, false);
      var c := NextCycle(ZeroCore(core), lines, false);
      [Observed(c)] + ZeroWaitSnapshots(c.core, lines, n - 1)
  }

  ghost predicate NothingHiddenInRun(core: Core, lines: set<Interrupt>, hidden: seq<bool>)
    requires CoreOk(core)
    decreases |hidden|
  {
    hidden == [] ||
      (FencesSeeNoWalk(core, lines, hidden[0]);
       NothingHidden(core, lines, hidden[0]) &&
       NothingHiddenInRun(NextCycle(core, lines, hidden[0]).core, lines, hidden[1..]))
  }

  /** The next cycle without waiting is the same from both cores. */
  predicate SameNext(core: Core, z: Core, lines: set<Interrupt>)
    requires WellPending(core) && WellPending(z)
  {
    SameCycle(NextCycle(ZeroCore(core), lines, false), NextCycle(ZeroCore(z), lines, false))
  }

  lemma {:induction false} RunsAgree(core: Core, z: Core, lines: set<Interrupt>, hidden: seq<bool>)
    requires CoreOk(core) && CoreOk(z) && NothingHiddenInRun(core, lines, hidden) && SameNext(core, z, lines)
    ensures var seen := Snapshots(core, lines, hidden); seen == ZeroWaitSnapshots(z, lines, |seen|)
    decreases |hidden|
  {
    hide NextCycle, WalkReady, SyncInterrupts, Run, Fetch, PendingInterrupt, Begin, Decode, WellDecoded, RdMatchesKind;
    if hidden != [] {
      FencesSeeNoWalk(core, lines, hidden[0]);
      FencesSeeNoWalk(ZeroCore(z), lines, false);
      StepIgnoresStalls(core, lines, hidden[0]);
      var c, y := NextCycle(core, lines, hidden[0]), NextCycle(ZeroCore(z), lines, false);
      if Stalled(c) {
        RunsAgree(c.core, z, lines, hidden[1..]);
      } else {
        SameZero(c.core.machine, y.core.machine);
        assert ZeroCore(c.core) == ZeroCore(y.core);
        RunsAgree(c.core, y.core, lines, hidden[1..]);
      }
    }
  }

  /** Whatever the pattern of Busy answers, the cycles that are not stalls show exactly
      the states, retirements and traps of as many cycles without wait states. */
  lemma RunsIgnoreStalls(core: Core, lines: set<Interrupt>, hidden: seq<bool>)
    requires CoreOk(core) && NothingHiddenInRun(core, lines, hidden)
    ensures var seen := Snapshots(core, lines, hidden); seen == ZeroWaitSnapshots(core, lines, |seen|)
  {
    RunsAgree(core, core, lines, hidden);
  }

  /* ---------- the core updated in place ---------- */

  class ReferenceCore {
    var hart: Hart
    var walker: Walker
    var bus: Bus
    var pendingDecoded: Option<Decoded>
    var lastTrap: Option<Trap>

    function State(): Core
      reads this
    {
      Core(Computer(hart, walker, bus), pendingDecoded)
    }

    constructor (vector: Word, system: Bus)
      ensures State() == ResetCore(vector, system)
    {
      hart, walker, bus, pendingDecoded, lastTrap := ResetHart(vector), RESET_WALKER, system, None, None;
    }

    method TakeTrap(trap: Trap)
      modifies this
      ensures State() == TrapCycle(old(State()), trap).core && lastTrap == Some(trap)
    {
      hart, lastTrap := ApplyTrap(hart, trap, hart.pc), Some(trap);
    }

    method Execute(decoded: Decoded) returns (retired: nat)
      requires WellDecoded(decoded)
      modifies this
      ensures CoreCycle(State(), retired, lastTrap) == Run(old(State()).machine, decoded)
    {
      var e := ExecuteDecoded(Computer(hart, walker, bus), decoded);
      hart, walker, bus := e.computer.hart, e.computer.walker, e.computer.bus;
      pendingDecoded := if e.retired == 0 && e.trap.None? then Some(decoded) else None;
      retired, lastTrap := e.retired, e.trap;
    }

    method FetchNext() returns (decoded: Option<Decoded>)
      requires pendingDecoded.None?
      modifies this
      ensures match Fetch(old(State()).machine)
              case Issue(m, d) => decoded == Some(d) && State() == Core(m, None)
              case Done(cycle) => decoded.None? && CoreCycle(State(), 0, lastTrap) == cycle
      ensures decoded.Some? ==> WellDecoded(decoded.value)
    {
      decoded, lastTrap := None, None;
      var pc := hart.pc;
      var t := Translate(walker, bus, MakeRequest(hart.csrs, hart.privilege, pc, InstructionAccess));
      walker, bus := t.walker, t.bus;
      match t.result {
        case Stall =>
        case Faulted(trap) => TakeTrap(trap);
        case PhysicalAddress(pa) =>
          var r := Fetch32(bus, pa);
          bus := r.bus;
          match r.answer {
            case Err(fault) =>
              if !fault.Busy? { TakeTrap(FaultTrap(fault, pc, InstructionAccess)); }
            case Ok(raw) =>
              decoded := Decode(raw, pc);
              if decoded.None? { TakeTrap(ExceptionTrap(IllegalInstruction(raw))); }
          }
      }
    }

    method StepCycle(lines: set<Interrupt>, busBusy: bool) returns (retired: nat)
      requires WellPending(State())
      modifies this
      ensures var c := NextCycle(old(State()), lines, busBusy);
              State() == c.core && retired == c.retired &&
              (c.retired > 0 || c.trap.Some? ==> lastTrap == c.trap)
    {
      hart := hart.(csrs := SyncInterrupts(hart.csrs, lines));
      retired := 0;
      if pendingDecoded.None? && !busBusy {
        var due := PendingInterrupt(hart.csrs, hart.privilege);
        if due.Some? {
          TakeTrap(InterruptTrap(due.value));
          return;
        }
      }
      if hart.halted { return; }
      var decoded := pendingDecoded;
      if decoded.None? { decoded := FetchNext(); }
      if decoded.Some? { retired := Execute(decoded.value); }
    }
  }
}
