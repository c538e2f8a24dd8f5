/** The pipeline against the reference core, one cycle at a time. */
module PipelineProof {
  import opened Wrappers
  import opened Isa
  import opened CsrState
  import opened CpuBus
  import opened Mmu
  import opened Exec
  import opened WalkerRuns
  import opened Reference
  import opened Pipeline

  /* ---------- instructions without translation ---------- */

  predicate Simple(kind: Kind) { !kind.Csr? && !kind.System? }

  predicate BareMode(c: Csrs) { c.supervisor.satp >> 31 == 0 }

  lemma BareTranslate(w: Walker, bus: Bus, c: Csrs, p: Privilege, va: Word, access: Access)
    requires w.active.None? && BareMode(c)
    ensures Translate(w, bus, MakeRequest(c, p, va, access)) == Translated(w, bus, PhysicalAddress(va))
  {
    assert !TranslationEnabled(c.supervisor.satp, EffectivePrivilege(c, p, access));
    hide EffectivePrivilege, TranslationEnabled;
  }

  /** The MEM stage when addresses are not translated. */
  function DataAccess(walker: Walker, bus: Bus, payload: ExMem): Accessed {
    var va := Address(payload);
    if !UsesMemory(payload.d) then Accessed(walker, bus, Passed(payload, payload.out.value))
    else if payload.d.kind.Load? then
      var r := LoadValue(bus, payload.d.kind.load, va);
      match r.answer
      case Ok(value) => Accessed(walker, r.bus, Passed(payload, Some(value)))
      case Err(fault) =>
        Accessed(walker, r.bus, if fault.Busy? then MemStall else MemTrap(FaultTrap(fault, va, LoadAccess)))
    else
      var r := StoreValue(bus, payload.d.kind.store, va, payload.out.storeValue);
      match r.answer
      case Ok(_) => Accessed(walker, r.bus, Passed(payload, None))
      case Err(fault) =>
        Accessed(walker, r.bus, if fault.Busy? then MemStall else MemTrap(FaultTrap(fault, va, StoreAccess)))
  }

  lemma BareMemoryStage(walker: Walker, bus: Bus, c: Csrs, p: Privilege, payload: ExMem)
    requires walker.active.None? && BareMode(c)
    ensures MemoryStage(walker, bus, c, p, payload) == DataAccess(walker, bus, payload)
  {
    BareTranslate(walker, bus, c, p, Address(payload), LoadAccess);
    BareTranslate(walker, bus, c, p, Address(payload), StoreAccess);
    hide Translate, MakeRequest, LoadValue, StoreValue, FaultTrap, BareMode;
  }

  /** EX of an instruction that looks at neither privilege nor CSRs. */
  function Computed(d: Decoded, v1: Word, v2: Word): (out: Outcome)
    requires Simple(d.kind)
    ensures out.csrWrite.None? && out.fence.None?
    ensures d.kind.Load? || d.kind.Store? || d.kind.Branch? <==> out.value.None?
  {
    ExecuteStage(d, v1, v2, Machine, RESET_CSRS).outcome
  }

  lemma ComputedAnywhere(d: Decoded, v1: Word, v2: Word, p: Privilege, c: Csrs)
    requires Simple(d.kind)
    ensures ExecuteStage(d, v1, v2, p, c) == Advance(Computed(d, v1, v2))
  {
    hide Alu, ImmediateRhs, BranchTaken, EffectiveAddress, Following, Even;
  }

  /** The hart once this instruction has been written back. */
  function Committed(h: Hart, memWb: Option<MemWb>): Hart {
    match memWb
    case None => h
    case Some(w) =>
      h.(pc := w.next,
         regs := if w.d.rd.Some? && w.value.Some? then WriteReg(h.regs, w.d.rd.value, w.value.value) else h.regs)
  }

  function CommitOf(w: MemWb): Commit { Commit(w.d.pc, w.next, w.d.kind, w.d.rd, w.value, w.csrWrite) }

  lemma SimpleWriteBack(h: Hart, walker: Walker, w: MemWb)
    requires Simple(w.d.kind) && w.csrWrite.None? && w.fence.None?
    ensures WriteBack(h, walker, w) == Written(Committed(h, Some(w)), walker, CommitOf(w))
  {
    hide WriteReg, FlushFence, Write, ReturnFromTrap;
  }

  function ComputedFor(h: Hart, d: Decoded): Outcome
    requires Simple(d.kind)
  {
    Computed(d, ReadReg(h.regs, Source(d.rs1)), ReadReg(h.regs, Source(d.rs2)))
  }

  /** The word at `pc` can be fetched and is `raw`. */
  predicate FetchedAt(mem: Memory, pc: Word, raw: Word) {
    WordAligned(pc) && CellOf(pc) in mem && mem[CellOf(pc)] == raw
  }

  predicate InstrAt(mem: Memory, d: Decoded) {
    FetchedAt(mem, d.pc, d.raw) && Decode(d.raw, d.pc) == Some(d) && Simple(d.kind)
  }

  predicate InstrFacts(d: Decoded) { WellDecoded(d) && RdMatchesKind(d) }

  lemma InstrAtFacts(mem: Memory, d: Decoded)
    requires InstrAt(mem, d)
    ensures InstrFacts(d)
  {
    assert forall raw, pc :: Decode(raw, pc).Some? ==> InstrFacts(Decode(raw, pc).value);
    hide Decode, WordAligned, CellOf;
  }

  /* ---------- the reference core on such an instruction ---------- */

  ghost predicate CoreReady(core: Core) {
    core.pending.None? && !core.machine.hart.halted && core.machine.hart.regs[0] == 0 &&
    BareMode(core.machine.hart.csrs) && core.machine.walker.active.None? && core.machine.bus.busy == NEVER
  }

  lemma FetchReads(bus: Bus, pc: Word, raw: Word)
    requires bus.busy == NEVER && FetchedAt(bus.mem, pc, raw)
    ensures Fetch32(bus, pc) == Reply(bus.Called(), Ok(raw))
  {
    hide WordAligned, CellOf;
  }

  /** One cycle of the reference core is EX, MEM and WB of the instruction at its pc. */
  lemma ReferenceRuns(core: Core, lines: set<Interrupt>, d: Decoded)
    requires CoreReady(core) && Synced(core, lines) == core
    requires InstrAt(core.machine.bus.mem, d) && d.pc == core.machine.hart.pc
    ensures var m := core.machine;
            var a := DataAccess(m.walker, m.bus.Called(), ExMem(d, ComputedFor(m.hart, d)));
            Begin(core, lines, true) == Issue(m.(bus := m.bus.Called()), d) &&
            NextCycle(core, lines, true) ==
              match a.event
              case MemStall => CoreCycle(Core(m.(bus := a.bus), Some(d)), 0, None)
              case MemTrap(trap) =>
                CoreCycle(Core(Computer(ApplyTrap(m.hart, trap, d.pc), a.walker, a.bus), None), 0, Some(trap))
              case MemAdvance(w) => CoreCycle(Core(Computer(Committed(m.hart, Some(w)), a.walker, a.bus), None), 1, None)
  {
    hide ExecuteStage, MemoryStage, WriteBack, Committed, EnterTrap, SyncInterrupts, PendingInterrupt, Decode, BareMode,
         WordAligned, CellOf, ExecuteDecoded, Computed, Translate, MakeRequest, LoadValue, StoreValue, FaultTrap;
    var m := core.machine;
    var h := m.hart;
    InstrAtFacts(m.bus.mem, d);
    BareTranslate(m.walker, m.bus, h.csrs, h.privilege, h.pc, InstructionAccess);
    FetchReads(m.bus, h.pc, d.raw);
    var m2 := m.(bus := m.bus.Called());
    assert Fetch(m) == Issue(m2, d);
    StagedEqualsSequential(m2, d);
    ComputedAnywhere(d, ReadReg(h.regs, Source(d.rs1)), ReadReg(h.regs, Source(d.rs2)), h.privilege, h.csrs);
    var x := ExMem(d, ComputedFor(h, d));
    BareMemoryStage(m2.walker, m2.bus, h.csrs, h.privilege, x);
    var a := DataAccess(m2.walker, m2.bus, x);
    if a.event.MemAdvance? {
      SimpleWriteBack(h, a.walker, a.event.payload);
    }
  }

  /* ---------- the state relation ---------- */

  /** MEM has finished `w` for the instruction at this hart's pc: its write-back is all
      that is left, and `mem` already holds its store. */
  ghost predicate WbTracks(core: Core, memWb: Option<MemWb>, mem: Memory) {
    match memWb
    case None => core.machine.bus.mem == mem
    case Some(w) =>
      var m := core.machine;
      InstrAt(m.bus.mem, w.d) && w.d.pc == m.hart.pc &&
      var a := DataAccess(m.walker, m.bus, ExMem(w.d, ComputedFor(m.hart, w.d)));
      a.event == MemAdvance(w) && a.bus.mem == mem
  }

  predicate ExTracks(h: Hart, mem: Memory, exMem: Option<ExMem>) {
    exMem.Some? ==>
      InstrAt(mem, exMem.value.d) && exMem.value.d.pc == h.pc && exMem.value.out == ComputedFor(h, exMem.value.d)
  }

  function AfterEx(h: Hart, exMem: Option<ExMem>): Word { if exMem.Some? then exMem.value.out.next else h.pc }

  /** A load in EX/MEM feeds no operand of the instruction behind it. */
  predicate NoLoadUse(exMem: Option<ExMem>, d: Decoded) {
    exMem.Some? && exMem.value.d.kind.Load? ==> !RawHazard(exMem.value.d.rd, d.rs1, d.rs2)
  }

  predicate OperandsLatched(h: Hart, y: IdEx) {
    y.v1 == ReadReg(h.regs, Source(y.d.rs1)) && y.v2 == ReadReg(h.regs, Source(y.d.rs2))
  }

  predicate IdTracks(pc: Word, mem: Memory, exMem: Option<ExMem>, idEx: Option<IdEx>) {
    idEx.Some? ==> InstrAt(mem, idEx.value.d) && idEx.value.d.pc == pc && NoLoadUse(exMem, idEx.value.d)
  }

  function AfterId(pc: Word, idEx: Option<IdEx>): Word { if idEx.Some? then idEx.value.predicted else pc }

  predicate IfTracks(pc: Word, mem: Memory, ifId: Option<IfId>) {
    ifId.Some? ==> ifId.value.pc == pc && FetchedAt(mem, pc, ifId.value.raw)
  }

  function AfterIf(pc: Word, ifId: Option<IfId>): Word { if ifId.Some? then ifId.value.predicted else pc }

  /** The instructions behind MEM, for a hart with everything ahead of them written back. */
  predicate TailTracks(h: Hart, mem: Memory, l: Latches, frontEnd: Word) {
    ExTracks(h, mem, l.exMem) && IdTracks(AfterEx(h, l.exMem), mem, l.exMem, l.idEx) &&
    IfTracks(AfterId(AfterEx(h, l.exMem), l.idEx), mem, l.ifId) &&
    frontEnd == AfterIf(AfterId(AfterEx(h, l.exMem), l.idEx), l.ifId)
  }

  /** The pipeline and a reference core that has run exactly its committed instructions. */
  ghost predicate Tracks(p: Pipe, core: Core) {
    CoreReady(core) && core.machine.hart == p.hart && core.machine.walker == p.walker &&
    core.machine.bus.readOnly == p.bus.readOnly && !p.barrier &&
    WbTracks(core, p.latches.memWb, p.bus.mem) &&
    TailTracks(Committed(p.hart, p.latches.memWb), p.bus.mem, p.latches, p.frontEnd) &&
    (p.latches.idEx.Some? ==> OperandsLatched(p.hart, p.latches.idEx.value))
  }

  /* ---------- keeping the interrupt lines in step ---------- */

  lemma SyncFacts(c: Csrs, lines: set<Interrupt>)
    ensures SyncInterrupts(c, lines).supervisor == c.supervisor
    ensures BareMode(SyncInterrupts(c, lines)) == BareMode(c)
  {
    hide LineBits, BareMode;
    BareBySatp(c, SyncInterrupts(c, lines));
  }

  lemma TrapFacts(c: Csrs, trap: Trap, pc: Word, p: Privilege)
    ensures EnterTrap(c, trap, pc, p).csrs.supervisor.satp == c.supervisor.satp
    ensures BareMode(EnterTrap(c, trap, pc, p).csrs) == BareMode(c)
  {
    hide DelegatesTrap, CauseBits, TrapValue, Vector, MachineEntryStatus, SupervisorEntryStatus, BareMode;
    BareBySatp(c, EnterTrap(c, trap, pc, p).csrs);
  }

  lemma BareBySatp(c: Csrs, e: Csrs)
    requires c.supervisor.satp == e.supervisor.satp
    ensures BareMode(c) == BareMode(e)
  {
  }

  lemma SyncTracks(p: Pipe, core: Core, lines: set<Interrupt>)
    requires Tracks(p, core)
    ensures Tracks(SyncedPipe(p, lines), Synced(core, lines))
    ensures Synced(Synced(core, lines), lines) == Synced(core, lines)
  {
    SyncFacts(p.hart.csrs, lines);
    SyncTwice(p.hart.csrs, lines);
    hide SyncInterrupts, BareMode, InstrAt, Computed, DataAccess, WriteReg, FetchedAt, RawHazard;
  }

  /* ---------- WB ---------- */

  lemma DataAccessQuiet(walker: Walker, bus: Bus, z: Bus, x: ExMem)
    requires Quiet(bus, z)
    ensures var r, s := DataAccess(walker, bus, x), DataAccess(walker, z, x);
            r.walker == s.walker == walker && !s.event.MemStall? && s.bus.busy == NEVER &&
            r.bus.readOnly == s.bus.readOnly == bus.readOnly && r.bus.busy == bus.busy &&
            (r.event.MemStall? ==> bus.busy != NEVER) &&
            if r.event.MemStall? then r.bus.mem == bus.mem
            else r.event == s.event && r.bus.mem == s.bus.mem && (!UsesMemory(x.d) ==> r.bus == bus)
  {
    hide LoadValue, StoreValue, FaultTrap;
    if x.d.kind.Load? {
      ReadQuiet(bus, z, x.d.kind.load, Address(x));
    } else if x.d.kind.Store? {
      WriteQuiet(bus, z, x.d.kind.store, Address(x), x.out.storeValue);
    }
  }

  lemma AccessedFacts(walker: Walker, bus: Bus, x: ExMem)
    ensures var a := DataAccess(walker, bus, x);
            match a.event
            case MemStall => true
            case MemTrap(_) => a.bus.mem == bus.mem
            case MemAdvance(w) =>
              w.d == x.d && w.csrWrite == x.out.csrWrite && w.fence == x.out.fence && w.next == x.out.next &&
              (!UsesMemory(x.d) ==> w.value == x.out.value) && (x.d.kind.Store? ==> w.value.None?) &&
              (x.d.kind.Load? ==> w.value.Some?)
  {
    hide CellOf, WordAligned, HalfAligned, Extract, SignExtend, Placed, Merge;
  }

  /** What a committing cycle did is what the reference core's instruction did. */
  predicate CommitAgrees(commit: Commit, d: Decoded, before: Hart, after: Hart) {
    commit.pc == before.pc && commit.next == after.pc && commit.kind == d.kind && commit.destination == d.rd &&
    commit.csrWrite.None? && (commit.value.Some? <==> d.rd.Some?) &&
    (d.rd.Some? && d.rd.value != 0 ==> commit.value == Some(ReadReg(after.regs, d.rd.value)))
  }

  /** The instruction the reference core runs next. */
  predicate Issues(core: Core, lines: set<Interrupt>, d: Decoded)
    requires WellPending(core)
  {
    var f := Begin(core, lines, true);
    f.Issue? && f.decoded == d
  }

  /** The reference core after the instruction in MEM/WB, if there is one. */
  function Retire(core: Core, lines: set<Interrupt>, commits: bool): CoreCycle
    requires WellPending(core)
  {
    if commits then NextCycle(core, lines, true) else Reference.Waiting(Synced(core, lines))
  }

  lemma RetireTracks(p: Pipe, core: Core, lines: set<Interrupt>)
    requires Tracks(p, core) && Synced(core, lines) == core
    ensures var w := RetirePhase(Start(p), p.latches.memWb);
            var r := Retire(core, lines, p.latches.memWb.Some?);
            w == Start(p).(hart := Committed(p.hart, p.latches.memWb),
                           commit := if p.latches.memWb.Some? then Some(CommitOf(p.latches.memWb.value)) else None) &&
            CoreReady(r.core) && r.core.machine.hart == w.hart && r.core.machine.walker == p.walker &&
            r.core.machine.bus.mem == p.bus.mem && r.core.machine.bus.readOnly == p.bus.readOnly &&
            Synced(r.core, lines) == r.core && r.trap.None? &&
            (p.latches.memWb.Some? ==>
               r.retired == 1 && Issues(core, lines, p.latches.memWb.value.d) &&
               CommitAgrees(CommitOf(p.latches.memWb.value), p.latches.memWb.value.d, p.hart, w.hart))
  {
    hide SyncInterrupts, BareMode, InstrAt, Computed, DataAccess, TailTracks, WriteBack, NextCycle, Begin;
    if p.latches.memWb.Some? {
      var w := p.latches.memWb.value;
      var m := core.machine;
      InstrAtSimple(m.bus.mem, w.d);
      var x := ExMem(w.d, ComputedFor(m.hart, w.d));
      ReferenceRuns(core, lines, w.d);
      DataAccessQuiet(m.walker, m.bus, m.bus.Called(), x);
      AccessedFacts(m.walker, m.bus, x);
      SimpleWriteBack(p.hart, p.walker, w);
    }
  }

  lemma InstrAtSimple(mem: Memory, d: Decoded)
    requires InstrAt(mem, d)
    ensures Simple(d.kind) && InstrFacts(d)
  {
    InstrAtFacts(mem, d);
    hide FetchedAt, Decode;
  }

  /* ---------- traps taken at the boundary ---------- */

  lemma TrapReady(core: Core, trap: Trap)
    requires CoreReady(core)
    ensures var t := TrapCycle(core, trap);
            CoreReady(t.core) && t.trap == Some(trap) && t.retired == 0 &&
            t.core.machine.bus == core.machine.bus && t.core.machine.walker == core.machine.walker &&
            t.core.machine.hart == ApplyTrap(core.machine.hart, trap, core.machine.hart.pc)
  {
    var h := core.machine.hart;
    TrapFacts(h.csrs, trap, h.pc, h.privilege);
    hide EnterTrap, BareMode;
  }

  lemma InterruptIsTaken(core: Core, lines: set<Interrupt>)
    requires CoreReady(core) && Synced(core, lines) == core
    requires PendingInterrupt(core.machine.hart.csrs, core.machine.hart.privilege).Some?
    ensures NextCycle(core, lines, false)
         == TrapCycle(core, InterruptTrap(PendingInterrupt(core.machine.hart.csrs, core.machine.hart.privilege).value))
  {
    hide SyncInterrupts, PendingInterrupt, EnterTrap, BareMode, Fetch, Run;
  }

  /* ---------- MEM ---------- */

  /** The stages behind WB start from a hart with MEM/WB written back. */
  ghost predicate AtBoundary(w: Work, l: Latches, core: Core) {
    CoreReady(core) && core.machine.hart == w.hart && core.machine.walker == w.walker &&
    core.machine.bus.mem == w.bus.mem && core.machine.bus.readOnly == w.bus.readOnly && !w.barrier &&
    TailTracks(w.hart, w.bus.mem, l, w.frontEnd) && w.next == EMPTY_LATCHES && w.trap.None? &&
    !w.flushed && !w.memoryWait && !w.fetchStalled && !w.decodeStalled
  }

  function MemoryResult(w: Work, payload: ExMem): Accessed { DataAccess(w.walker, w.bus, payload) }

  /** What MEM does, and that the reference core would do the same. */
  lemma MemoryTracks(w: Work, l: Latches, core: Core, lines: set<Interrupt>)
    requires AtBoundary(w, l, core) && Synced(core, lines) == core && l.exMem.Some?
    ensures var x := l.exMem.value;
            var a := MemoryResult(w, x);
            MemoryStage(w.walker, w.bus, w.hart.csrs, w.hart.privilege, x) == a && a.walker == w.walker &&
            a.bus.readOnly == w.bus.readOnly &&
            match a.event
            case MemStall => a.bus.mem == w.bus.mem
            case MemTrap(trap) => a.bus.mem == w.bus.mem && x.d.pc == w.hart.pc &&
              var r := NextCycle(core, lines, true);
              CoreReady(r.core) && r.core.machine.hart == ApplyTrap(w.hart, trap, w.hart.pc) && r.trap == Some(trap) &&
              r.core.machine.walker == w.walker && r.core.machine.bus.mem == w.bus.mem &&
              r.core.machine.bus.readOnly == w.bus.readOnly
            case MemAdvance(nw) => WbTracks(core, Some(nw), a.bus.mem) && (!UsesMemory(x.d) ==> a.bus == w.bus)
  {
    hide SyncInterrupts, PendingInterrupt, BareMode, InstrAt, Computed, DataAccess, NextCycle, Begin, MemoryStage, EnterTrap,
         IdTracks, IfTracks, AfterId, AfterEx, AfterIf;
    var x, m := l.exMem.value, core.machine;
    InstrAtSimple(w.bus.mem, x.d);
    BareMemoryStage(w.walker, w.bus, w.hart.csrs, w.hart.privilege, x);
    ReferenceRuns(core, lines, x.d);
    assert x == ExMem(x.d, ComputedFor(m.hart, x.d));
    DataAccessQuiet(w.walker, w.bus, m.bus, x);
    DataAccessQuiet(w.walker, w.bus, m.bus.Called(), x);
    AccessedFacts(w.walker, w.bus, x);
    AccessedFacts(w.walker, m.bus.Called(), x);
    var a := MemoryResult(w, x);
    if a.event.MemTrap? {
      TrapReady(core, a.event.trap);
    }
  }

  /* ---------- EX ---------- */

  /** MEM's result for what was in EX/MEM. */
  predicate PassedOn(exMem: Option<ExMem>, nw: Option<MemWb>) {
    match exMem
    case None => nw.None?
    case Some(x) =>
      nw.Some? && nw.value.d == x.d && nw.value.next == x.out.next &&
      if x.d.kind.Load? then x.out.value.None?
      else nw.value.value == x.out.value && (x.out.value.Some? && x.d.rd != Some(0) ==> WritesBack(x.d))
  }

  lemma ReadAfterCommit(h: Hart, w: Option<MemWb>, r: Reg)
    ensures ReadReg(Committed(h, w).regs, r)
         == if r != 0 && w.Some? && w.value.d.rd == Some(r) && w.value.value.Some? then w.value.value.value
            else ReadReg(h.regs, r)
  {
  }

  /** Forwarding gives an operand the value it has once everything ahead is written back. */
  lemma ForwardingCorrect(source: Option<Reg>, latched: Word, h: Hart, memWb: Option<MemWb>, exMem: Option<ExMem>,
                          nw: Option<MemWb>)
    requires h.regs[0] == 0 && latched == ReadReg(h.regs, Source(source)) && PassedOn(exMem, nw)
    requires exMem.Some? && exMem.value.d.kind.Load? && source.Some? && source.value != 0 ==> exMem.value.d.rd != source
    ensures ForwardedOperand(source, latched, exMem, memWb)
         == ReadReg(Committed(Committed(h, memWb), nw).regs, Source(source))
  {
    ReadAfterCommit(h, memWb, Source(source));
    ReadAfterCommit(Committed(h, memWb), nw, Source(source));
    assert source.Some? && source.value == 0 ==> ReadReg(h.regs, 0) == 0;
    hide Committed, ReadReg, WritesBack;
  }

  lemma ExecuteTracks(w: Work, l: Latches, h: Hart, nw: Option<MemWb>, y: IdEx)
    requires WellLatched(l) && l.idEx == Some(y) && Simple(y.d.kind) && OperandsLatched(h, y) && NoLoadUse(l.exMem, y.d)
    requires h.regs[0] == 0 && w.hart == Committed(h, l.memWb) && PassedOn(l.exMem, nw)
    ensures Executing(w, l) == Advance(ComputedFor(Committed(w.hart, nw), y.d))
  {
    hide ForwardedOperand, Committed, ExecuteStage, Computed, PassedOn;
    ForwardingCorrect(y.d.rs1, y.v1, h, l.memWb, l.exMem, nw);
    ForwardingCorrect(y.d.rs2, y.v2, h, l.memWb, l.exMem, nw);
    var r := Committed(w.hart, nw).regs;
    ComputedAnywhere(y.d, ReadReg(r, Source(y.d.rs1)), ReadReg(r, Source(y.d.rs2)), w.hart.privilege, w.hart.csrs);
  }

  lemma PassedOnFacts(walker: Walker, bus: Bus, h: Hart, x: ExMem, nw: MemWb)
    requires Simple(x.d.kind) && RdMatchesKind(x.d) && x.out == ComputedFor(h, x.d)
    requires DataAccess(walker, bus, x).event == MemAdvance(nw)
    ensures PassedOn(Some(x), Some(nw))
  {
    AccessedFacts(walker, bus, x);
    hide DataAccess, ExecuteStage;
  }

  /* ---------- IF ---------- */

  lemma BareFetchStage(walker: Walker, bus: Bus, c: Csrs, p: Privilege, pc: Word, table: Predictor)
    requires walker.active.None? && BareMode(c)
    ensures var f := FetchStage(walker, bus, c, p, pc, table);
            f.walker == walker && f.bus.mem == bus.mem && f.bus.readOnly == bus.readOnly && f.bus.busy == bus.busy &&
            (f.event.FetchStall? ==> bus.busy != NEVER) &&
            (f.event.FetchAdvance? ==> f.event.payload.pc == pc && FetchedAt(bus.mem, pc, f.event.payload.raw))
  {
    BareTranslate(walker, bus, c, p, pc, InstructionAccess);
    hide Translate, MakeRequest, BareMode, PredictFromRaw, CellOf, WordAligned, FaultTrap;
  }

  /* ---------- from EX to the end of the cycle ---------- */

  /** The words of the instructions still in flight have not changed since `mem`. */
  predicate SameWord(mem: Memory, later: Memory, pc: Word) {
    CellOf(pc) in mem ==> CellOf(pc) in later && later[CellOf(pc)] == mem[CellOf(pc)]
  }

  predicate SameWords(mem: Memory, later: Memory, l: Latches) {
    (l.exMem.Some? ==> SameWord(mem, later, l.exMem.value.d.pc)) &&
    (l.idEx.Some? ==> SameWord(mem, later, l.idEx.value.d.pc)) &&
    (l.ifId.Some? ==> SameWord(mem, later, l.ifId.value.pc))
  }

  lemma SameWordKeeps(mem: Memory, later: Memory, pc: Word, raw: Word)
    requires SameWord(mem, later, pc) && FetchedAt(mem, pc, raw)
    ensures FetchedAt(later, pc, raw)
  {
    hide CellOf, WordAligned;
  }

  lemma SameWordKeepsInstr(mem: Memory, later: Memory, d: Decoded)
    requires SameWord(mem, later, d.pc) && InstrAt(mem, d)
    ensures InstrAt(later, d)
  {
    SameWordKeeps(mem, later, d.pc, d.raw);
    hide FetchedAt, SameWord, Decode;
  }

  /** The stages behind MEM, when MEM has passed `nw` on. */
  ghost predicate AfterMemory(w: Work, l: Latches, h: Hart, nw: Option<MemWb>, mem: Memory) {
    !w.flushed && !w.memoryWait && !w.barrier && !w.decodeStalled && w.trap.None? && w.hart.regs[0] == 0 &&
    h.regs[0] == 0 && w.hart == Committed(h, l.memWb) && w.next == EMPTY_LATCHES.(memWb := nw) &&
    BareMode(w.hart.csrs) && w.walker.active.None? && WellLatched(l) && PassedOn(l.exMem, nw) &&
    IdTracks(Committed(w.hart, nw).pc, mem, l.exMem, l.idEx) &&
    IfTracks(AfterId(Committed(w.hart, nw).pc, l.idEx), mem, l.ifId) &&
    w.frontEnd == AfterIf(AfterId(Committed(w.hart, nw).pc, l.idEx), l.ifId) &&
    (l.idEx.Some? ==> OperandsLatched(h, l.idEx.value))
  }

  /** EX has put its instruction into EX/MEM and, unless the prediction was wrong, the
      latches behind it follow on. */
  ghost predicate AfterExecute(w: Work, l: Latches, h2: Hart, nw: Option<MemWb>, mem: Memory) {
    !w.memoryWait && !w.barrier && !w.decodeStalled && w.trap.None? && BareMode(w.hart.csrs) && w.walker.active.None? &&
    w.next == EMPTY_LATCHES.(memWb := nw, exMem := w.next.exMem) && ExTracks(h2, mem, w.next.exMem) &&
    (w.next.exMem.Some? <==> l.idEx.Some?) && (l.idEx.Some? ==> w.next.exMem.value.d == l.idEx.value.d) &&
    if w.flushed then w.frontEnd == AfterEx(h2, w.next.exMem)
    else IfTracks(AfterEx(h2, w.next.exMem), mem, l.ifId) && w.frontEnd == AfterIf(AfterEx(h2, w.next.exMem), l.ifId)
  }

  lemma ExecutePhaseTracks(w: Work, l: Latches, h: Hart, nw: Option<MemWb>, mem: Memory)
    requires AfterMemory(w, l, h, nw, mem)
    ensures var e := ExecutePhase(w, l);
            AfterExecute(e, l, Committed(w.hart, nw), nw, mem) && e.hart == w.hart && e.bus == w.bus &&
            e.walker == w.walker && e.commit == w.commit
  {
    hide BareMode, Computed, ExecuteStage, FetchedAt, Committed, PassedOn, Decode, OperandsLatched, ForwardedOperand, Train;
    if l.idEx.Some? {
      var y := l.idEx.value;
      InstrAtSimple(mem, y.d);
      hide InstrAt;
      ExecuteTracks(w, l, h, nw, y);
      assert Computed(y.d, ReadReg(Committed(w.hart, nw).regs, Source(y.d.rs1)),
                      ReadReg(Committed(w.hart, nw).regs, Source(y.d.rs2))).csrWrite.None?;
    }
  }

  /* ---------- ID and IF ---------- */

  predicate DecodesSimple(l: Latches) { l.idEx.Some? ==> Simple(l.idEx.value.d.kind) }

  /** ID has moved its instruction on, held it, or found nothing to do. */
  ghost predicate AfterDecode(w: Work, h2: Hart, nw: Option<MemWb>, mem: Memory) {
    var x := w.next.exMem;
    !w.memoryWait && !w.barrier && w.trap.None? && BareMode(w.hart.csrs) && w.walker.active.None? &&
    w.next.memWb == nw && ExTracks(h2, mem, x) && DecodesSimple(w.next) &&
    if w.flushed then w.frontEnd == AfterEx(h2, x)
    else
      IdTracks(AfterEx(h2, x), mem, x, w.next.idEx) && (w.next.idEx.Some? ==> OperandsLatched(w.hart, w.next.idEx.value)) &&
      IfTracks(AfterId(AfterEx(h2, x), w.next.idEx), mem, w.next.ifId) && (w.next.ifId.Some? ==> w.decodeStalled) &&
      w.frontEnd == AfterIf(AfterId(AfterEx(h2, x), w.next.idEx), w.next.ifId)
  }

  lemma DecodePhaseTracks(w: Work, l: Latches, h2: Hart, nw: Option<MemWb>, mem: Memory)
    requires AfterExecute(w, l, h2, nw, mem)
    requires DecodePhase(w, l).trap.None? && DecodesSimple(DecodePhase(w, l).next)
    ensures var e := DecodePhase(w, l);
            AfterDecode(e, h2, nw, mem) && e.hart == w.hart && e.bus == w.bus && e.walker == w.walker &&
            e.commit == w.commit && (e.flushed <==> w.flushed) && e.next.exMem == w.next.exMem &&
            WellLatched(e.next) && e.fetchStalled == w.fetchStalled
  {
    hide BareMode, Computed, Decode, NeedsCsrSerialization, CsrInFlight, CellOf, WordAligned, ReadReg;
    if l.ifId.Some? && !w.flushed {
      DecodeRestores(l.ifId.value.raw, l.ifId.value.pc);
    }
  }

  lemma DecodeRestores(raw: Word, pc: Word)
    ensures RestoresPc(raw, pc)
  {
  }

  predicate RestoresPc(raw: Word, pc: Word) {
    var d := Decode(raw, pc);
    d.Some? ==> d.value.pc == pc && d.value.raw == raw && WellDecoded(d.value)
  }

  lemma FetchPhaseTracks(w: Work, h2: Hart, nw: Option<MemWb>, mem: Memory)
    requires AfterDecode(w, h2, nw, mem) && FetchPhase(w).trap.None?
    requires SameWords(mem, FetchPhase(w).bus.mem, FetchPhase(w).next)
    ensures var e := FetchPhase(w);
            TailTracks(h2, e.bus.mem, e.next, e.frontEnd) && e.next.memWb == nw && e.hart == w.hart &&
            e.walker == w.walker && e.bus.mem == w.bus.mem && e.bus.readOnly == w.bus.readOnly && !e.barrier &&
            e.commit == w.commit && (e.next.idEx.Some? ==> OperandsLatched(e.hart, e.next.idEx.value))
  {
    hide BareMode, Computed, InstrAt, FetchedAt, RawHazard, SameWord, FetchStage, OperandsLatched, Decode;
    BareFetchStage(w.walker, w.bus, w.hart.csrs, w.hart.privilege, w.frontEnd, w.predictor);
    var e := FetchPhase(w);
    if e.next.exMem.Some? {
      SameWordKeepsInstr(mem, w.bus.mem, e.next.exMem.value.d);
    }
    if e.next.idEx.Some? {
      SameWordKeepsInstr(mem, w.bus.mem, e.next.idEx.value.d);
    }
    if w.next.ifId.Some? && !w.flushed {
      SameWordKeeps(mem, w.bus.mem, w.next.ifId.value.pc, w.next.ifId.value.raw);
    }
  }

  /* ---------- a whole cycle ---------- */

  /** The reference core driven by what a pipeline cycle reports: it takes one instruction
      if the cycle commits, and then traps if the cycle does. */
  function Follow(core: Core, lines: set<Interrupt>, c: PipeCycle): CoreCycle
    requires WellPending(core)
  {
    var r := Retire(core, lines, c.commit.Some?);
    if c.trap.Some? && WellPending(r.core) then NextCycle(r.core, lines, !c.trap.value.InterruptTrap?) else r
  }

  /** The result in MEM/WB that the operands of a waiting instruction do not have. */
  predicate Stale(l: Latches) {
    l.idEx.Some? && l.memWb.Some? && l.memWb.value.value.Some? && l.memWb.value.d.rd.Some? &&
    var y, rd, value := l.idEx.value, l.memWb.value.d.rd.value, l.memWb.value.value.value;
    rd != 0 && ((Source(y.d.rs1) == rd && y.v1 != value) || (Source(y.d.rs2) == rd && y.v2 != value))
  }

  predicate MemoryWaits(p: Pipe, busBusy: bool) {
    MemoryPhase(AtBoundaryWork(p, busBusy), p.latches).memoryWait
  }

  /** The cycles the refinement speaks about: no trap in EX, ID or IF, no CSR or system
      instruction decoded, no store into an instruction in flight, and no wait for memory
      that leaves an instruction with a stale operand. */
  ghost predicate InScope(p: Pipe, lines: set<Interrupt>, busBusy: bool)
    requires WellLatched(p.latches)
  {
    var c := NextPipe(p, lines, busBusy);
    (c.trap.Some? ==> c.stage.AtBoundary? || c.stage.AtMemory?) && DecodesSimple(c.pipe.latches) &&
    SameWords(p.bus.mem, c.pipe.bus.mem, c.pipe.latches) &&
    !(MemoryWaits(SyncedPipe(p, lines), busBusy) && Stale(p.latches))
  }

  ghost predicate CycleAgrees(c: PipeCycle, f: CoreCycle) {
    Tracks(c.pipe, f.core) && f.trap == c.trap && WellLatched(c.pipe.latches)
  }

  /** After a trap nothing is in flight and the front end is at the handler. */
  lemma EmptyTracks(p: Pipe, core: Core)
    requires CoreReady(core) && core.machine.hart == p.hart && core.machine.walker == p.walker && !p.barrier
    requires core.machine.bus.readOnly == p.bus.readOnly && core.machine.bus.mem == p.bus.mem
    requires p.latches == EMPTY_LATCHES && p.frontEnd == p.hart.pc
    ensures Tracks(p, core) && WellLatched(p.latches)
  {
    hide BareMode;
  }

  lemma InterruptCase(p: Pipe, w: Work, core: Core, lines: set<Interrupt>, busBusy: bool)
    requires WellLatched(p.latches) && AtBoundary(w, p.latches, core) && Synced(core, lines) == core
    requires w == RetirePhase(Start(p), p.latches.memWb) && InterruptPhase(w, busBusy) != w
    ensures var c := RunningCycle(p, busBusy);
            CycleAgrees(c, NextCycle(core, lines, false)) && c.commit == w.commit &&
            c.trap.Some? && c.trap.value.InterruptTrap?
  {
    hide SyncInterrupts, PendingInterrupt, EnterTrap, BareMode, TailTracks, NextCycle, RetirePhase;
    InterruptIsTaken(core, lines);
    var trap := InterruptTrap(PendingInterrupt(w.hart.csrs, w.hart.privilege).value);
    TrapReady(core, trap);
    EmptyTracks(RunningCycle(p, busBusy).pipe, TrapCycle(core, trap).core);
  }

  lemma MemoryTrapCase(p: Pipe, w: Work, core: Core, lines: set<Interrupt>, busBusy: bool)
    requires WellLatched(p.latches) && AtBoundary(w, p.latches, core) && Synced(core, lines) == core
    requires w == RetirePhase(Start(p), p.latches.memWb) && InterruptPhase(w, busBusy) == w
    requires p.latches.exMem.Some? && MemoryResult(w, p.latches.exMem.value).event.MemTrap?
    ensures var c := RunningCycle(p, busBusy);
            CycleAgrees(c, NextCycle(core, lines, true)) && c.commit == w.commit &&
            c.trap.Some? && !c.trap.value.InterruptTrap?
  {
    MemoryTrapsAreExceptions(w.walker, w.bus, p.latches.exMem.value);
    hide SyncInterrupts, InterruptPhase, EnterTrap, BareMode, TailTracks, NextCycle, RetirePhase, MemoryStage, DataAccess;
    MemoryTracks(w, p.latches, core, lines);
    EmptyTracks(RunningCycle(p, busBusy).pipe, NextCycle(core, lines, true).core);
  }

  lemma MemoryTrapsAreExceptions(walker: Walker, bus: Bus, x: ExMem)
    ensures var e := DataAccess(walker, bus, x).event; e.MemTrap? ==> e.trap.ExceptionTrap?
  {
    hide LoadValue, StoreValue;
  }

  /** Operands that are not stale are still the committed registers after WB. */
  lemma FreshOperands(h: Hart, l: Latches)
    requires h.regs[0] == 0 && l.idEx.Some? && OperandsLatched(h, l.idEx.value)
    ensures !Stale(l) <==> OperandsLatched(Committed(h, l.memWb), l.idEx.value)
  {
  }

  lemma StallCase(p: Pipe, w: Work, core: Core, lines: set<Interrupt>, busBusy: bool)
    requires WellLatched(p.latches) && AtBoundary(w, p.latches, core) && Synced(core, lines) == core
    requires w == RetirePhase(Start(p), p.latches.memWb) && InterruptPhase(w, busBusy) == w
    requires w.hart == Committed(p.hart, p.latches.memWb) && p.hart.regs[0] == 0
    requires p.latches.idEx.Some? ==> OperandsLatched(p.hart, p.latches.idEx.value)
    requires p.latches.exMem.Some? && MemoryResult(w, p.latches.exMem.value).event.MemStall?
    ensures var c := RunningCycle(p, busBusy);
            c.commit == w.commit && c.trap.None? && WellLatched(c.pipe.latches) && MemoryWaits(p, busBusy) &&
            (Tracks(c.pipe, core) <==> !Stale(p.latches))
  {
    hide SyncInterrupts, InterruptPhase, BareMode, InstrAt, NextCycle, RetirePhase, MemoryStage, DataAccess, WriteReg,
         OperandsLatched, Stale, FetchedAt, Computed, RawHazard;
    MemoryTracks(w, p.latches, core, lines);
    if p.latches.idEx.Some? {
      FreshOperands(p.hart, p.latches);
    } else {
      NothingStale(p.latches);
    }
  }

  lemma NothingStale(l: Latches)
    requires l.idEx.None?
    ensures !Stale(l)
  {
  }

  lemma RegisterZero(h: Hart, memWb: Option<MemWb>)
    ensures Committed(h, memWb).regs[0] == h.regs[0] && Committed(h, memWb).csrs == h.csrs
  {
  }

  lemma BehindMemory(w: Work, l: Latches, core: Core, h: Hart, nw: Option<MemWb>, m: Work)
    requires WellLatched(l) && AtBoundary(w, l, core) && w.hart == Committed(h, l.memWb) && h.regs[0] == 0
    requires l.idEx.Some? ==> OperandsLatched(h, l.idEx.value)
    requires match l.exMem
             case None => nw.None? && m == w
             case Some(x) =>
               var a := MemoryResult(w, x);
               a.walker == w.walker && nw.Some? && a.event == MemAdvance(nw.value) && PassedOn(l.exMem, nw) &&
               m == w.(walker := a.walker, bus := a.bus, fetchStalled := UsesMemory(x.d), next := w.next.(memWb := nw))
    ensures AfterMemory(m, l, h, nw, w.bus.mem)
  {
    hide BareMode, InstrAt, DataAccess, OperandsLatched, FetchedAt, Computed, RawHazard, WriteReg;
    RegisterZero(h, l.memWb);
  }

  lemma NothingHidesBehindFetch(e: Work, l: Latches)
    requires e.next.idEx.None?
    requires var c := FetchPhase(DecodePhase(e, l)); c.trap.None? && DecodesSimple(c.next)
    ensures var d := DecodePhase(e, l); d.trap.None? && (!e.barrier ==> DecodesSimple(d.next))
  {
    hide FetchStage, Decode, EnterTrap;
  }

  /** From a boundary with MEM passed on, the rest of the cycle keeps the relation. */
  lemma AdvanceCase(p: Pipe, w: Work, core: Core, lines: set<Interrupt>, busBusy: bool)
    requires WellLatched(p.latches) && AtBoundary(w, p.latches, core) && Synced(core, lines) == core
    requires w == RetirePhase(Start(p), p.latches.memWb) && InterruptPhase(w, busBusy) == w
    requires w.hart == Committed(p.hart, p.latches.memWb) && p.hart.regs[0] == 0 && w.bus == p.bus
    requires p.latches.idEx.Some? ==> OperandsLatched(p.hart, p.latches.idEx.value)
    requires p.latches.exMem.Some? ==> MemoryResult(w, p.latches.exMem.value).event.MemAdvance?
    requires var c := RunningCycle(p, busBusy);
             c.trap.None? && DecodesSimple(c.pipe.latches) && SameWords(p.bus.mem, c.pipe.bus.mem, c.pipe.latches)
    ensures var c := RunningCycle(p, busBusy);
            Tracks(c.pipe, core) && WellLatched(c.pipe.latches) && c.commit == w.commit
  {
    hide SyncInterrupts, InterruptPhase, BareMode, InstrAt, NextCycle, RetirePhase, MemoryStage, DataAccess, Committed,
         OperandsLatched, FetchedAt, Computed, RawHazard, ExecutePhase, DecodePhase, FetchPhase, SameWord, PassedOn;
    var l := p.latches;
    var nw: Option<MemWb> := None;
    if l.exMem.Some? {
      var x := l.exMem.value;
      MemoryTracks(w, l, core, lines);
      nw := Some(MemoryResult(w, x).event.payload);
      InstrAtSimple(w.bus.mem, x.d);
      PassedOnFacts(w.walker, w.bus, w.hart, x, nw.value);
    }
    var m := MemoryPhase(w, l);
    BehindMemory(w, l, core, p.hart, nw, m);
    ExecutePhaseTracks(m, l, p.hart, nw, p.bus.mem);
    var e := ExecutePhase(m, l);
    var d := DecodePhase(e, l);
    NothingHidesBehindFetch(e, l);
    DecodePhaseTracks(e, l, Committed(m.hart, nw), nw, p.bus.mem);
    FetchPhaseTracks(d, Committed(m.hart, nw), nw, p.bus.mem);
  }

  lemma InterruptPhaseShape(w: Work, busBusy: bool)
    requires !w.flushed && w.trap.None?
    ensures var v := InterruptPhase(w, busBusy);
            v != w ==> v.trap.Some?
  {
    hide PendingInterrupt, EnterTrap;
  }

  lemma SyncedCycleTracks(p: Pipe, core: Core, lines: set<Interrupt>, busBusy: bool)
    requires Tracks(p, core) && WellLatched(p.latches) && Synced(core, lines) == core && SyncedPipe(p, lines) == p
    requires InScope(p, lines, busBusy)
    ensures CycleAgrees(NextPipe(p, lines, busBusy), Follow(core, lines, NextPipe(p, lines, busBusy)))
    ensures CommitsAgree(p, core, lines, NextPipe(p, lines, busBusy))
  {
    hide SyncInterrupts, InterruptPhase, BareMode, NextCycle, RetirePhase, DataAccess, MemoryPhase, SameWords, Stale,
         ExecutePhase, DecodePhase, FetchPhase, PendingInterrupt, TailTracks, WbTracks, DecodesSimple, Committed, Begin;
    RetireTracks(p, core, lines);
    var w := RetirePhase(Start(p), p.latches.memWb);
    var r := Retire(core, lines, p.latches.memWb.Some?);
    if InterruptPhase(w, busBusy) != w {
      InterruptCase(p, w, r.core, lines, busBusy);
    } else if p.latches.exMem.Some? && MemoryResult(w, p.latches.exMem.value).event.MemTrap? {
      MemoryTrapCase(p, w, r.core, lines, busBusy);
    } else if p.latches.exMem.Some? && MemoryResult(w, p.latches.exMem.value).event.MemStall? {
      StallCase(p, w, r.core, lines, busBusy);
    } else {
      StagesCannotTrap(p, w, r.core, lines, busBusy);
      AdvanceCase(p, w, r.core, lines, busBusy);
    }
  }

  /** A commit is reported exactly for MEM/WB, and is the reference core's instruction. */
  ghost predicate CommitsAgree(p: Pipe, core: Core, lines: set<Interrupt>, c: PipeCycle)
    requires WellPending(core)
  {
    (c.commit.Some? <==> p.latches.memWb.Some?) &&
    (c.commit.Some? ==>
       var r, f := NextCycle(core, lines, true), Begin(core, lines, true);
       r.retired == 1 && r.trap.None? && f.Issue? &&
       CommitAgrees(c.commit.value, f.decoded, core.machine.hart, r.core.machine.hart))
  }

  /** The only traps so far are those of EX, ID and IF. */
  predicate LateTraps(w: Work) { w.trap.Some? ==> !w.stage.AtBoundary? && !w.stage.AtMemory? }

  lemma LateTrapsOnly(w: Work, l: Latches)
    requires WellLatched(l) && LateTraps(w)
    ensures LateTraps(ExecutePhase(w, l)) && LateTraps(DecodePhase(w, l)) && LateTraps(FetchPhase(w))
  {
    hide Executing, Decode, EnterTrap, FetchStage, Train, DecodeStalls, TranslationBarrier;
  }

  /** In scope, a cycle that neither is interrupted nor faults in MEM does not trap. */
  lemma StagesCannotTrap(p: Pipe, w: Work, core: Core, lines: set<Interrupt>, busBusy: bool)
    requires WellLatched(p.latches) && AtBoundary(w, p.latches, core) && Synced(core, lines) == core
    requires w == RetirePhase(Start(p), p.latches.memWb) && InterruptPhase(w, busBusy) == w
    requires p.latches.exMem.Some? ==> MemoryResult(w, p.latches.exMem.value).event.MemAdvance?
    requires var c := RunningCycle(p, busBusy); c.trap.Some? ==> c.stage.AtBoundary? || c.stage.AtMemory?
    ensures RunningCycle(p, busBusy).trap.None?
  {
    hide SyncInterrupts, InterruptPhase, RetirePhase, DataAccess, MemoryStage, TailTracks, BareMode,
         ExecutePhase, DecodePhase, FetchPhase;
    if p.latches.exMem.Some? {
      MemoryTracks(w, p.latches, core, lines);
    }
    var m := MemoryPhase(w, p.latches);
    LateTrapsOnly(m, p.latches);
    LateTrapsOnly(ExecutePhase(m, p.latches), p.latches);
    LateTrapsOnly(DecodePhase(ExecutePhase(m, p.latches), p.latches), p.latches);
  }

  /* ---------- the main step ---------- */

  /** One cycle of the pipeline is, for the reference core, at most one instruction and
      then at most one trap, with the same commit, the same trap and the same registers,
      CSRs, privilege, pc and memory. */
  lemma PipelineTracksReference(p: Pipe, core: Core, lines: set<Interrupt>, busBusy: bool)
    requires Tracks(p, core) && WellLatched(p.latches) && InScope(p, lines, busBusy)
    ensures CycleAgrees(NextPipe(p, lines, busBusy), Follow(core, lines, NextPipe(p, lines, busBusy)))
    ensures CommitsAgree(p, core, lines, NextPipe(p, lines, busBusy))
  {
    var s, z := SyncedPipe(p, lines), Synced(core, lines);
    SyncTracks(p, core, lines);
    hide Tracks, InScope, Begin, SyncInterrupts;
    SyncTwice(p.hart.csrs, lines);
    assert SyncedPipe(s, lines) == s;
    SameFromSynced(p, core, lines, busBusy);
    SyncedCycleTracks(s, z, lines, busBusy);
  }

  lemma SameFromSynced(p: Pipe, core: Core, lines: set<Interrupt>, busBusy: bool)
    requires WellLatched(p.latches) && WellPending(core) && SyncedPipe(SyncedPipe(p, lines), lines) == SyncedPipe(p, lines)
    requires Synced(Synced(core, lines), lines) == Synced(core, lines)
    ensures NextPipe(SyncedPipe(p, lines), lines, busBusy) == NextPipe(p, lines, busBusy)
    ensures InScope(p, lines, busBusy) ==> InScope(SyncedPipe(p, lines), lines, busBusy)
    ensures forall hidden :: NextCycle(Synced(core, lines), lines, hidden) == NextCycle(core, lines, hidden)
    ensures Begin(Synced(core, lines), lines, true) == Begin(core, lines, true)
  {
    hide RunningCycle, HaltedCycle, SyncInterrupts, MemoryWaits, Stale, Run, Fetch, PendingInterrupt;
  }
}
