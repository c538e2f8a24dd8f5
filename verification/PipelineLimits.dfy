/** Exactly when the pipeline leaves the reference core behind: a memory wait that keeps a
    stale operand, and a trap in EX, ID or IF with an older instruction still in flight. */
module PipelineLimits {
  import opened Wrappers
  import opened Isa
  import opened CsrState
  import opened CpuBus
  import opened Mmu
  import opened Exec
  import opened WalkerRuns
  import opened Reference
  import opened Pipeline
  import opened PipelineProof
  import opened PipelineRuns

  /* ---------- memory waits ---------- */

  /** A wait for memory keeps the relation unless the instruction being written back is
      the source of an operand that the waiting instruction latched before. */
  lemma WaitIsExact(p: Pipe, core: Core, lines: set<Interrupt>, busBusy: bool)
    requires Tracks(p, core) && WellLatched(p.latches) && MemoryWaits(SyncedPipe(p, lines), busBusy)
    ensures var c := NextPipe(p, lines, busBusy);
            Tracks(c.pipe, Follow(core, lines, c).core) <==> !Stale(p.latches)
  {
    var s, z := SyncedPipe(p, lines), Synced(core, lines);
    SyncTracks(p, core, lines);
    RetireTracks(s, z, lines);
    var w := RetirePhase(Start(s), s.latches.memWb);
    var r := Retire(z, lines, s.latches.memWb.Some?);
    SyncTwice(p.hart.csrs, lines);
    hide SyncInterrupts, BareMode, TailTracks, WbTracks, RetirePhase, Committed, DataAccess, NextCycle, Stale, Run, Fetch,
         ExecutePhase, DecodePhase, FetchPhase;
    WaitingShape(s, w, r.core, lines, busBusy);
    StallCase(s, w, r.core, lines, busBusy);
    SameRetire(core, lines, p.latches.memWb.Some?);
  }

  lemma SameRetire(core: Core, lines: set<Interrupt>, commits: bool)
    requires WellPending(core) && Synced(Synced(core, lines), lines) == Synced(core, lines)
    ensures Retire(Synced(core, lines), lines, commits) == Retire(core, lines, commits)
  {
    hide SyncInterrupts, Run, Fetch, PendingInterrupt;
  }

  lemma WaitingShape(p: Pipe, w: Work, core: Core, lines: set<Interrupt>, busBusy: bool)
    requires w == RetirePhase(Start(p), p.latches.memWb) && PipelineProof.AtBoundary(w, p.latches, core)
    requires MemoryWaits(p, busBusy) && Synced(core, lines) == core
    ensures InterruptPhase(w, busBusy) == w && p.latches.exMem.Some?
    ensures MemoryResult(w, p.latches.exMem.value).event.MemStall?
  {
    hide SyncInterrupts, BareMode, TailTracks, RetirePhase, DataAccess, NextCycle, MemoryStage, EnterTrap, PendingInterrupt;
    if p.latches.exMem.Some? {
      MemoryTracks(w, p.latches, core, lines);
    }
  }

  /* ---------- what the reference core can trap on ---------- */

  predicate FetchFault(t: Trap) {
    t.ExceptionTrap? && (t.exception.InstructionAccessFault? || t.exception.InstructionAddressMisaligned?)
  }

  lemma BareLoadTraps(m: Computer, d: Decoded)
    requires m.walker.active.None? && BareMode(m.hart.csrs) && d.kind.Load?
    ensures var t := ExecuteDecoded(m, d).trap; t.Some? ==> !FetchFault(t.value)
  {
    var va := EffectiveAddress(Operand(m.hart.regs, d.rs1), d.imm);
    BareTranslate(m.walker, m.bus, m.hart.csrs, m.hart.privilege, va, LoadAccess);
    hide EffectiveAddress, Following, LoadValue, Translate, MakeRequest, EnterTrap, WriteReg, Operand, BareMode;
  }

  lemma BareStoreTraps(m: Computer, d: Decoded)
    requires m.walker.active.None? && BareMode(m.hart.csrs) && d.kind.Store?
    ensures var t := ExecuteDecoded(m, d).trap; t.Some? ==> !FetchFault(t.value)
  {
    var va := EffectiveAddress(Operand(m.hart.regs, d.rs1), d.imm);
    BareTranslate(m.walker, m.bus, m.hart.csrs, m.hart.privilege, va, StoreAccess);
    hide EffectiveAddress, Following, StoreValue, Translate, MakeRequest, EnterTrap, Operand, BareMode;
  }

  lemma OtherTraps(m: Computer, d: Decoded)
    requires WellDecoded(d) && !UsesMemory(d)
    ensures var t := ExecuteDecoded(m, d).trap; t.Some? ==> !FetchFault(t.value)
  {
    hide Alu, ImmediateRhs, BranchTaken, EffectiveAddress, Following, Even, ExecuteCsr, CsrIllegal, SfenceIllegal,
         WfiIllegal, SretIllegal, FlushFence, FenceFromOperands, Write, EnterTrap, ReturnFromMachineTrap,
         ReturnFromSupervisorTrap, Translate, WriteReg, Operand;
  }

  /** Without translation, running a fetched instruction never raises a fetch fault. */
  lemma NoFetchFault(m: Computer, d: Decoded)
    requires m.walker.active.None? && BareMode(m.hart.csrs) && WellDecoded(d)
    ensures var t := ExecuteDecoded(m, d).trap; t.Some? ==> !FetchFault(t.value)
  {
    hide ExecuteDecoded, BareMode, FetchFault;
    if d.kind.Load? {
      BareLoadTraps(m, d);
    } else if d.kind.Store? {
      BareStoreTraps(m, d);
    } else {
      OtherTraps(m, d);
    }
  }

  /** The reference core at a word it can fetch. */
  lemma ReferenceFetches(core: Core, lines: set<Interrupt>, raw: Word)
    requires CoreReady(core) && Synced(core, lines) == core
    requires FetchedAt(core.machine.bus.mem, core.machine.hart.pc, raw)
    ensures var m := core.machine.(bus := core.machine.bus.Called());
            NextCycle(core, lines, true) ==
              match Decode(raw, m.hart.pc)
              case None => TrapCycle(Core(m, None), ExceptionTrap(IllegalInstruction(raw)))
              case Some(d) => Run(m, d)
  {
    hide Run, EnterTrap, SyncInterrupts, PendingInterrupt, Decode, BareMode, WordAligned, CellOf, Translate, MakeRequest;
    var m := core.machine;
    BareTranslate(m.walker, m.bus, m.hart.csrs, m.hart.privilege, m.hart.pc, InstructionAccess);
    FetchReads(m.bus, m.hart.pc, raw);
  }

  /** An instruction older than the trap is what the reference core runs instead. */
  lemma OlderRunsFirst(core: Core, lines: set<Interrupt>, d: Decoded)
    requires CoreReady(core) && Synced(core, lines) == core
    requires InstrAt(core.machine.bus.mem, d) && d.pc == core.machine.hart.pc
    ensures var t := NextCycle(core, lines, true).trap;
            t.Some? ==> UsesMemory(d) && t.value.ExceptionTrap? && !FetchFault(t.value) &&
                        !t.value.exception.IllegalInstruction?
  {
    hide NextCycle, Begin, InstrAt, BareMode, DataAccess, Computed, Committed, EnterTrap, FetchFault;
    InstrAtSimple(core.machine.bus.mem, d);
    ReferenceRuns(core, lines, d);
    DataTraps(core.machine.walker, core.machine.bus.Called(), ExMem(d, ComputedFor(core.machine.hart, d)));
  }

  lemma DataTraps(walker: Walker, bus: Bus, x: ExMem)
    ensures var e := DataAccess(walker, bus, x).event;
            e.MemTrap? ==> UsesMemory(x.d) && e.trap.ExceptionTrap? && !FetchFault(e.trap) &&
                           !e.trap.exception.IllegalInstruction?
  {
    hide LoadValue, StoreValue;
  }

  /* ---------- a cycle that traps in EX, ID or IF ---------- */

  /** The boundary after WB, and what MEM then passed on. */
  ghost predicate Reached(s: Pipe, w: Work, core: Core, lines: set<Interrupt>, busBusy: bool) {
    WellLatched(s.latches) && w == RetirePhase(Start(s), s.latches.memWb) && InterruptPhase(w, busBusy) == w &&
    w.hart == Committed(s.hart, s.latches.memWb) && w.bus == s.bus && w.walker == s.walker &&
    PipelineProof.AtBoundary(w, s.latches, core) && Synced(core, lines) == core &&
    (s.latches.exMem.Some? ==> MemoryResult(w, s.latches.exMem.value).event.MemAdvance?)
  }

  lemma LateTrapReaches(s: Pipe, core: Core, lines: set<Interrupt>, busBusy: bool)
    requires Tracks(s, core) && WellLatched(s.latches) && Synced(core, lines) == core
    requires var c := RunningCycle(s, busBusy); c.trap.Some? && !c.stage.AtBoundary? && !c.stage.AtMemory?
    ensures Reached(s, RetirePhase(Start(s), s.latches.memWb), Retire(core, lines, s.latches.memWb.Some?).core, lines, busBusy)
    ensures RunningCycle(s, busBusy).commit.Some? <==> s.latches.memWb.Some?
  {
    hide SyncInterrupts, BareMode, NextCycle, DataAccess, ExecutePhase, DecodePhase, FetchPhase,
         PendingInterrupt, TailTracks, WbTracks, Committed, Begin, EnterTrap, MemoryStage, RetirePhase;
    RetireTracks(s, core, lines);
    var l := s.latches;
    var w := RetirePhase(Start(s), l.memWb);
    var r := Retire(core, lines, l.memWb.Some?);
    var i := InterruptPhase(w, busBusy);
    if l.exMem.Some? {
      MemoryTracks(w, l, r.core, lines);
    }
    var m := MemoryPhase(i, l);
    if m.flushed {
      FlushedShape(m, l);
    } else if m.memoryWait {
      WaitingEnds(m, l);
    }
    ExecuteKeeps(m, l);
    DecodeKeeps(ExecutePhase(m, l), l);
    LatchesKept(DecodePhase(ExecutePhase(m, l), l));
  }

  lemma WaitingEnds(w: Work, l: Latches)
    requires w.memoryWait && !w.flushed && WellLatched(l)
    ensures FetchPhase(DecodePhase(ExecutePhase(w, l), l)) == w
  {
  }

  /** With an older instruction in EX/MEM or ID/EX, no trap of ID or IF is the reference
      core's next one. */
  lemma OlderDisagrees(s: Pipe, w: Work, core: Core, lines: set<Interrupt>, busBusy: bool)
    requires Reached(s, w, core, lines, busBusy)
    requires s.latches.exMem.Some? || s.latches.idEx.Some?
    ensures var t := NextCycle(core, lines, true).trap;
            t.Some? ==> t.value.ExceptionTrap? && !FetchFault(t.value) && !t.value.exception.IllegalInstruction?
    ensures s.latches.exMem.Some? ==> NextCycle(core, lines, true).trap.None?
  {
    hide SyncInterrupts, BareMode, NextCycle, DataAccess, InterruptPhase, RetirePhase, InstrAt, Computed, Committed,
         FetchedAt, RawHazard, Begin, EnterTrap;
    if s.latches.exMem.Some? {
      var x := s.latches.exMem.value;
      InstrAtSimple(w.bus.mem, x.d);
      ReferenceRuns(core, lines, x.d);
      DataAccessQuiet(w.walker, w.bus, core.machine.bus.Called(), x);
    } else {
      OlderRunsFirst(core, lines, s.latches.idEx.value.d);
    }
  }

  /* ---------- ID ---------- */

  lemma ExecuteStageOf(w: Work, l: Latches)
    requires WellLatched(l)
    ensures var e := ExecutePhase(w, l);
            e.stage == w.stage || e.stage.AtExecute?
  {
    hide Executing, EnterTrap, Train, TranslationBarrier;
  }

  lemma DecodeStageOf(w: Work, l: Latches)
    requires !w.stage.AtDecode?
    ensures var d := DecodePhase(w, l);
            (d.stage.AtDecode? <==> !w.flushed && !w.memoryWait && !w.barrier && l.ifId.Some?
                                    && Decode(l.ifId.value.raw, l.ifId.value.pc).None?) &&
            (d.stage.AtDecode? ==>
               d == TakeTrap(w, ExceptionTrap(IllegalInstruction(l.ifId.value.raw)), l.ifId.value.pc, AtDecode)) &&
            (d.stage.AtDecode? || d.stage == w.stage)
  {
    hide Decode, EnterTrap, DecodeStalls;
  }

  lemma FetchStageOf(w: Work)
    ensures var f := FetchPhase(w);
            f.stage.AtFetch? || f.stage == w.stage
    ensures w.flushed ==> FetchPhase(w) == w.(next := w.next.(ifId := None, idEx := None))
  {
    hide EnterTrap, FetchStage;
  }

  lemma MemoryPhaseReached(s: Pipe, w: Work, core: Core, lines: set<Interrupt>, busBusy: bool)
    requires Reached(s, w, core, lines, busBusy)
    ensures var m := MemoryPhase(w, s.latches);
            m.stage == w.stage && m.trap == w.trap && !m.flushed && !m.memoryWait && !m.barrier && m.hart == w.hart &&
            (s.latches.exMem.None? ==> m == w)
  {
    hide SyncInterrupts, BareMode, NextCycle, DataAccess, InterruptPhase, RetirePhase, TailTracks, MemoryStage;
    if s.latches.exMem.Some? {
      MemoryTracks(w, s.latches, core, lines);
    }
  }

  lemma DecodeTrapShape(s: Pipe, w: Work, core: Core, lines: set<Interrupt>, busBusy: bool)
    requires Reached(s, w, core, lines, busBusy)
    requires RunningCycle(s, busBusy).trap.Some? && RunningCycle(s, busBusy).stage.AtDecode?
    ensures var c := RunningCycle(s, busBusy);
            s.latches.ifId.Some? && Decode(s.latches.ifId.value.raw, s.latches.ifId.value.pc).None? &&
            c.trap == Some(ExceptionTrap(IllegalInstruction(s.latches.ifId.value.raw)))
    ensures var c := RunningCycle(s, busBusy);
            s.latches.exMem.None? && s.latches.idEx.None? ==>
              c.pipe.latches == EMPTY_LATCHES && c.pipe.bus == s.bus && c.pipe.walker == s.walker && !c.pipe.barrier &&
              c.pipe.hart == ApplyTrap(w.hart, c.trap.value, s.latches.ifId.value.pc) && c.pipe.frontEnd == c.pipe.hart.pc
  {
    hide SyncInterrupts, BareMode, NextCycle, DataAccess, InterruptPhase, TailTracks, EnterTrap, Decode, ExecutePhase,
         DecodePhase, FetchPhase, MemoryPhase, Committed;
    var l := s.latches;
    RetireStage(s);
    var m := MemoryPhase(w, l);
    MemoryPhaseReached(s, w, core, lines, busBusy);
    ExecuteStageOf(m, l);
    var e := ExecutePhase(m, l);
    DecodeStageOf(e, l);
    FetchStageOf(DecodePhase(e, l));
    if l.exMem.None? && l.idEx.None? {
      NothingToExecute(m, l);
    }
  }

  lemma RetireStage(s: Pipe)
    ensures RetirePhase(Start(s), s.latches.memWb).stage.AtBoundary?
  {
    hide WriteBack;
  }

  /** An illegal instruction found in ID traps as the reference core does if and only if
      no older instruction is in EX/MEM or ID/EX. */
  lemma DecodeTrapIsExact(p: Pipe, core: Core, lines: set<Interrupt>, busBusy: bool)
    requires Tracks(p, core) && WellLatched(p.latches)
    requires NextPipe(p, lines, busBusy).trap.Some? && NextPipe(p, lines, busBusy).stage.AtDecode?
    ensures var c := NextPipe(p, lines, busBusy);
            CycleAgrees(c, Follow(core, lines, c)) <==> p.latches.exMem.None? && p.latches.idEx.None?
  {
    hide SyncInterrupts, BareMode, WbTracks, RetirePhase, Committed, DataAccess, NextCycle, EnterTrap, InstrAt,
         RunningCycle, Decode, InterruptPhase, RawHazard, ExecutePhase, MemoryPhase, FetchPhase, DecodePhase, Retire, MemoryStage;
    var s, z := SyncedPipe(p, lines), Synced(core, lines);
    SyncTracks(p, core, lines);
    SyncTwice(p.hart.csrs, lines);
    LateTrapReaches(s, z, lines, busBusy);
    var w := RetirePhase(Start(s), s.latches.memWb);
    var r := Retire(z, lines, s.latches.memWb.Some?).core;
    SameRetire(core, lines, s.latches.memWb.Some?);
    DecodeTrapShape(s, w, r, lines, busBusy);
    var c := RunningCycle(s, busBusy);
    if s.latches.exMem.None? && s.latches.idEx.None? {
      ReferenceFetches(r, lines, s.latches.ifId.value.raw);
      var m := r.machine.(bus := r.machine.bus.Called());
      TrapReady(Core(m, None), c.trap.value);
      EmptyTracks(c.pipe, NextCycle(r, lines, true).core);
    } else {
      OlderDisagrees(s, w, r, lines, busBusy);
    }
  }

  /* ---------- IF ---------- */

  lemma FetchTrapKind(walker: Walker, bus: Bus, c: Csrs, p: Privilege, pc: Word, table: Predictor)
    requires walker.active.None? && BareMode(c)
    ensures var f, r := FetchStage(walker, bus, c, p, pc, table), Fetch32(bus, pc);
            f.event.FetchTrap? ==>
              r.answer.Err? && !r.answer.fault.Busy? && FetchFault(f.event.trap) &&
              f.event.trap == FaultTrap(r.answer.fault, pc, InstructionAccess)
  {
    BareTranslate(walker, bus, c, p, pc, InstructionAccess);
    hide Translate, MakeRequest, BareMode, PredictFromRaw, CellOf, WordAligned;
  }

  lemma FetchTrapPhase(w: Work)
    requires !w.stage.AtFetch? && w.walker.active.None? && BareMode(w.hart.csrs)
    ensures var f, r := FetchPhase(w), Fetch32(w.bus, w.frontEnd);
            f.stage.AtFetch? ==>
              r.answer.Err? && !r.answer.fault.Busy? && f.trap.Some? && FetchFault(f.trap.value) && !w.flushed &&
              f.trap.value == FaultTrap(r.answer.fault, w.frontEnd, InstructionAccess) &&
              f == TakeTrap(w.(bus := f.bus), f.trap.value, w.frontEnd, AtFetch) &&
              f.bus.mem == w.bus.mem && f.bus.readOnly == w.bus.readOnly
  {
    BareFetchStage(w.walker, w.bus, w.hart.csrs, w.hart.privilege, w.frontEnd, w.predictor);
    FetchTrapKind(w.walker, w.bus, w.hart.csrs, w.hart.privilege, w.frontEnd, w.predictor);
    hide FetchStage, EnterTrap, BareMode, FaultTrap, Load32;
  }

  /** What IF is given in a cycle that traps there. */
  lemma FetchReached(s: Pipe, w: Work, core: Core, lines: set<Interrupt>, busBusy: bool)
    requires Reached(s, w, core, lines, busBusy)
    ensures var m := MemoryPhase(w, s.latches);
            var d := DecodePhase(ExecutePhase(m, s.latches), s.latches);
            RunningCycle(s, busBusy) == Finished(FetchPhase(d)) && !d.stage.AtFetch? && (d.trap.Some? ==> d.flushed) &&
            (d.trap.None? ==> d.hart == w.hart && d.walker == w.walker)
    ensures var d := DecodePhase(ExecutePhase(MemoryPhase(w, s.latches), s.latches), s.latches);
            s.latches.exMem.None? && s.latches.idEx.None? && s.latches.ifId.None? ==> d == w
  {
    hide SyncInterrupts, BareMode, NextCycle, DataAccess, InterruptPhase, TailTracks, ExecutePhase,
         DecodePhase, FetchPhase, MemoryPhase, Committed, RetirePhase;
    var l := s.latches;
    RetireStage(s);
    var m := MemoryPhase(w, l);
    MemoryPhaseReached(s, w, core, lines, busBusy);
    var e := ExecutePhase(m, l);
    var d := DecodePhase(e, l);
    ExecuteStageOf(m, l);
    DecodeStage(e, l);
    ExecuteTrapFlushes(m, l);
    DecodeTrapFlushes(e, l);
    TrapStays(e, l);
    ExecuteKeeps(m, l);
    DecodeKeeps(e, l);
    MemoryWalker(s, w, core, lines, busBusy);
    if l.exMem.None? && l.idEx.None? && l.ifId.None? {
      NothingToExecute(m, l);
      NothingToDecode(e, l);
    }
  }

  lemma DecodeStage(w: Work, l: Latches)
    ensures DecodePhase(w, l).stage == w.stage || DecodePhase(w, l).stage.AtDecode?
  {
    hide Decode, EnterTrap, DecodeStalls;
  }

  lemma FetchTrapShape(s: Pipe, w: Work, core: Core, lines: set<Interrupt>, busBusy: bool)
    requires Reached(s, w, core, lines, busBusy)
    requires RunningCycle(s, busBusy).trap.Some? && RunningCycle(s, busBusy).stage.AtFetch?
    ensures FetchFault(RunningCycle(s, busBusy).trap.value)
    ensures var c, r := RunningCycle(s, busBusy), Fetch32(s.bus, s.frontEnd);
            s.latches.exMem.None? && s.latches.idEx.None? && s.latches.ifId.None? ==>
              r.answer.Err? && !r.answer.fault.Busy? &&
              c.trap.value == FaultTrap(r.answer.fault, s.frontEnd, InstructionAccess) &&
              c.pipe.latches == EMPTY_LATCHES && c.pipe.bus.mem == s.bus.mem && c.pipe.bus.readOnly == s.bus.readOnly &&
              c.pipe.walker == s.walker && !c.pipe.barrier &&
              c.pipe.hart == ApplyTrap(w.hart, c.trap.value, s.frontEnd) && c.pipe.frontEnd == c.pipe.hart.pc
  {
    FetchReached(s, w, core, lines, busBusy);
    RetireFrontEnd(s);
    hide SyncInterrupts, BareMode, NextCycle, DataAccess, InterruptPhase, TailTracks, EnterTrap, ExecutePhase,
         DecodePhase, FetchPhase, MemoryPhase, Committed, Load32, FaultTrap, FetchFault, RetirePhase, RunningCycle;
    var d := DecodePhase(ExecutePhase(MemoryPhase(w, s.latches), s.latches), s.latches);
    FetchStageOf(d);
    if d.trap.None? {
      FetchTrapPhase(d);
    }
  }

  lemma RetireFrontEnd(s: Pipe)
    ensures RetirePhase(Start(s), s.latches.memWb).frontEnd == s.frontEnd
  {
    hide WriteBack;
  }

  lemma MemoryWalker(s: Pipe, w: Work, core: Core, lines: set<Interrupt>, busBusy: bool)
    requires Reached(s, w, core, lines, busBusy)
    ensures MemoryPhase(w, s.latches).walker == w.walker
  {
    hide SyncInterrupts, BareMode, NextCycle, DataAccess, InterruptPhase, RetirePhase, TailTracks, MemoryStage;
    if s.latches.exMem.Some? {
      MemoryTracks(w, s.latches, core, lines);
    }
  }

  lemma ExecuteTrapFlushes(w: Work, l: Latches)
    requires WellLatched(l) && (w.trap.Some? ==> w.flushed)
    ensures ExecutePhase(w, l).trap.Some? ==> ExecutePhase(w, l).flushed
  {
    hide Executing, EnterTrap, Train, TranslationBarrier;
  }

  lemma DecodeTrapFlushes(w: Work, l: Latches)
    requires w.trap.Some? ==> w.flushed
    ensures DecodePhase(w, l).trap.Some? ==> DecodePhase(w, l).flushed
  {
    hide Decode, EnterTrap, DecodeStalls;
  }

  lemma ReferenceFetchFaults(core: Core, lines: set<Interrupt>, bus: Bus)
    requires CoreReady(core) && Synced(core, lines) == core && Quiet(bus, core.machine.bus)
    requires Fetch32(bus, core.machine.hart.pc).answer.Err? && !Fetch32(bus, core.machine.hart.pc).answer.fault.Busy?
    ensures var pc := core.machine.hart.pc;
            var m := core.machine.(bus := Fetch32(core.machine.bus, pc).bus);
            NextCycle(core, lines, true)
            == TrapCycle(Core(m, None), FaultTrap(Fetch32(bus, pc).answer.fault, pc, InstructionAccess)) &&
            m.bus.mem == core.machine.bus.mem && m.bus.readOnly == core.machine.bus.readOnly && m.bus.busy == NEVER
  {
    hide Run, EnterTrap, SyncInterrupts, PendingInterrupt, Decode, BareMode, Translate, MakeRequest, FaultTrap;
    var m := core.machine;
    BareTranslate(m.walker, m.bus, m.hart.csrs, m.hart.privilege, m.hart.pc, InstructionAccess);
    FetchReadQuiet(bus, m.bus, m.hart.pc);
    hide Load32;
  }

  /** The instruction in IF/ID is what the reference core runs, without a fetch fault. */
  lemma FetchedRunsFirst(core: Core, lines: set<Interrupt>, raw: Word)
    requires CoreReady(core) && Synced(core, lines) == core
    requires FetchedAt(core.machine.bus.mem, core.machine.hart.pc, raw)
    ensures var t := NextCycle(core, lines, true).trap; t.Some? ==> !FetchFault(t.value)
  {
    ReferenceFetches(core, lines, raw);
    DecodeRestores(raw, core.machine.hart.pc);
    hide NextCycle, Decode, ExecuteDecoded, BareMode, FetchedAt, EnterTrap;
    var m := core.machine.(bus := core.machine.bus.Called());
    if Decode(raw, m.hart.pc).Some? {
      NoFetchFault(m, Decode(raw, m.hart.pc).value);
    }
  }

  /** A fetch fault traps as the reference core does if and only if nothing older than
      the fetch is in EX/MEM, ID/EX or IF/ID. */
  lemma FetchTrapIsExact(p: Pipe, core: Core, lines: set<Interrupt>, busBusy: bool)
    requires Tracks(p, core) && WellLatched(p.latches)
    requires NextPipe(p, lines, busBusy).trap.Some? && NextPipe(p, lines, busBusy).stage.AtFetch?
    ensures var c := NextPipe(p, lines, busBusy);
            CycleAgrees(c, Follow(core, lines, c)) <==>
            p.latches.exMem.None? && p.latches.idEx.None? && p.latches.ifId.None?
  {
    hide SyncInterrupts, BareMode, WbTracks, RetirePhase, Committed, DataAccess, NextCycle, EnterTrap, InstrAt, Retire,
         RunningCycle, InterruptPhase, RawHazard, FaultTrap, Load32, FetchedAt, ExecutePhase, MemoryPhase,
         FetchPhase, DecodePhase, MemoryStage;
    var s, z := SyncedPipe(p, lines), Synced(core, lines);
    SyncTracks(p, core, lines);
    SyncTwice(p.hart.csrs, lines);
    LateTrapReaches(s, z, lines, busBusy);
    var w := RetirePhase(Start(s), s.latches.memWb);
    var r := Retire(z, lines, s.latches.memWb.Some?).core;
    SameRetire(core, lines, s.latches.memWb.Some?);
    FetchTrapShape(s, w, r, lines, busBusy);
    RetireFrontEnd(s);
    var c := RunningCycle(s, busBusy);
    if s.latches.exMem.Some? || s.latches.idEx.Some? {
      OlderDisagrees(s, w, r, lines, busBusy);
    } else if s.latches.ifId.Some? {
      FetchedRunsFirst(r, lines, s.latches.ifId.value.raw);
    } else {
      ReferenceFetchFaults(r, lines, s.bus);
      var m := r.machine.(bus := Fetch32(r.machine.bus, r.machine.hart.pc).bus);
      TrapReady(Core(m, None), c.trap.value);
      EmptyTracks(c.pipe, NextCycle(r, lines, true).core);
    }
  }

  /* ---------- EX ---------- */

  /** The pipeline without what is behind EX/MEM. */
  function HeadOf(p: Pipe): Pipe {
    p.(latches := p.latches.(idEx := None, ifId := None),
       frontEnd := AfterEx(Committed(p.hart, p.latches.memWb), p.latches.exMem))
  }

  /** ID/EX holds an instruction of any kind, the next one after EX/MEM. */
  ghost predicate HeadAt(p: Pipe, y: IdEx) {
    p.latches.idEx == Some(y) && FetchedAt(p.bus.mem, y.d.pc, y.d.raw) && Decode(y.d.raw, y.d.pc) == Some(y.d) &&
    y.d.pc == HeadOf(p).frontEnd && OperandsLatched(p.hart, y) && p.hart.regs[0] == 0
  }

  /** As `Tracks`, with an instruction of any kind in ID/EX. */
  ghost predicate HeadTracks(p: Pipe, core: Core, y: IdEx) {
    Tracks(HeadOf(p), core) && HeadAt(p, y) && NoLoadUse(p.latches.exMem, y.d)
  }

  lemma {:induction false} ReferenceExecuteTraps(core: Core, lines: set<Interrupt>, d: Decoded, trap: Trap)
    requires CoreReady(core) && Synced(core, lines) == core && WellDecoded(d) && RdMatchesKind(d)
    requires FetchedAt(core.machine.bus.mem, d.pc, d.raw) && Decode(d.raw, d.pc) == Some(d) && d.pc == core.machine.hart.pc
    requires var h := core.machine.hart;
             ExecuteStage(d, ReadReg(h.regs, Source(d.rs1)), ReadReg(h.regs, Source(d.rs2)), h.privilege, h.csrs)
             == ExecuteTrap(trap)
    ensures NextCycle(core, lines, true)
         == TrapCycle(Core(core.machine.(bus := core.machine.bus.Called()), None), trap)
  {
    hide NextCycle, Decode, ExecuteDecoded, BareMode, FetchedAt, EnterTrap, ExecuteStage;
    ReferenceFetches(core, lines, d.raw);
    StagedEqualsSequential(core.machine.(bus := core.machine.bus.Called()), d);
  }

  lemma DecodedFacts(raw: Word, pc: Word)
    ensures Decode(raw, pc).Some? ==> InstrFacts(Decode(raw, pc).value)
  {
  }

  lemma ExecuteTrapPhase(w: Work, l: Latches)
    requires WellLatched(l) && !w.stage.AtExecute?
    ensures ExecutePhase(w, l).stage.AtExecute? ==>
      l.idEx.Some? && !w.flushed && !w.memoryWait && Executing(w, l).ExecuteTrap? &&
      ExecutePhase(w, l) == TakeTrap(w, Executing(w, l).trap, l.idEx.value.d.pc, AtExecute)
  {
    hide Executing, EnterTrap, Train, TranslationBarrier;
  }

  lemma FlushedEnds(w: Work, l: Latches)
    requires w.flushed
    ensures FetchPhase(DecodePhase(w, l)) == w.(next := w.next.(ifId := None, idEx := None))
  {
  }

  lemma RetireIgnoresFrontEnd(p: Pipe, head: Pipe)
    requires head == p.(latches := head.latches, frontEnd := head.frontEnd) && head.latches.memWb == p.latches.memWb
    ensures RetirePhase(Start(head), p.latches.memWb) == RetirePhase(Start(p), p.latches.memWb).(frontEnd := head.frontEnd)
  {
    hide WriteBack;
  }

  lemma InterruptIgnoresFrontEnd(w: Work, frontEnd: Word, busBusy: bool)
    requires w.trap.None?
    ensures InterruptPhase(w, busBusy) == w ==>
              InterruptPhase(w.(frontEnd := frontEnd), busBusy) == w.(frontEnd := frontEnd)
    ensures InterruptPhase(w, busBusy) != w ==> InterruptPhase(w, busBusy).flushed && InterruptPhase(w, busBusy).stage.AtBoundary?
  {
    hide PendingInterrupt, EnterTrap;
  }

  /** A cycle that traps in EX got there through WB and MEM. */
  lemma HeadReaches(s: Pipe, core: Core, y: IdEx, lines: set<Interrupt>, busBusy: bool)
    requires HeadTracks(s, core, y) && WellLatched(s.latches) && Synced(core, lines) == core
    requires var c := RunningCycle(s, busBusy); c.trap.Some? && c.stage.AtExecute?
    ensures var w := RetirePhase(Start(s), s.latches.memWb);
            var r := Retire(core, lines, s.latches.memWb.Some?);
            Reached(HeadOf(s), w.(frontEnd := HeadOf(s).frontEnd), r.core, lines, busBusy) && InterruptPhase(w, busBusy) == w
    ensures RunningCycle(s, busBusy).commit.Some? <==> s.latches.memWb.Some?
  {
    hide SyncInterrupts, BareMode, NextCycle, DataAccess, ExecutePhase, DecodePhase, FetchPhase, InterruptPhase,
         TailTracks, WbTracks, Committed, Begin, EnterTrap, MemoryStage, RetirePhase, OperandsLatched, FetchedAt, Decode;
    var l, head := s.latches, HeadOf(s);
    RetireTracks(head, core, lines);
    RetireIgnoresFrontEnd(s, head);
    var w := RetirePhase(Start(s), l.memWb);
    var r := Retire(core, lines, l.memWb.Some?);
    InterruptIgnoresFrontEnd(w, head.frontEnd, busBusy);
    var i := InterruptPhase(w, busBusy);
    if l.exMem.Some? {
      MemoryTracks(w.(frontEnd := head.frontEnd), head.latches, r.core, lines);
    }
    var m := MemoryPhase(i, l);
    if m.flushed {
      FlushedShape(m, l);
    } else if m.memoryWait {
      WaitingEnds(m, l);
    }
    ExecuteKeeps(m, l);
    DecodeKeeps(ExecutePhase(m, l), l);
    LatchesKept(DecodePhase(ExecutePhase(m, l), l));
  }

  /** What that cycle leaves. */
  lemma ExecuteTrapShape(s: Pipe, w: Work, busBusy: bool)
    requires WellLatched(s.latches) && w == RetirePhase(Start(s), s.latches.memWb) && InterruptPhase(w, busBusy) == w
    requires var m := MemoryPhase(w, s.latches); !m.flushed && !m.memoryWait && m.hart == w.hart && m.stage.AtBoundary?
    requires var c := RunningCycle(s, busBusy); c.trap.Some? && c.stage.AtExecute?
    ensures var m := MemoryPhase(w, s.latches);
            s.latches.idEx.Some? && Executing(m, s.latches).ExecuteTrap? &&
            var t := TakeTrap(m, Executing(m, s.latches).trap, s.latches.idEx.value.d.pc, AtExecute);
            RunningCycle(s, busBusy) == Finished(t.(next := t.next.(ifId := None, idEx := None)))
  {
    hide ExecutePhase, DecodePhase, FetchPhase, InterruptPhase, EnterTrap, RetirePhase, MemoryPhase, Executing;
    var m := MemoryPhase(w, s.latches);
    var e := ExecutePhase(m, s.latches);
    ExecuteTrapPhase(m, s.latches);
    ExecuteStageOf(m, s.latches);
    DecodeStage(e, s.latches);
    FetchStageOf(DecodePhase(e, s.latches));
    if e.flushed {
      FlushedEnds(e, s.latches);
    }
  }

  lemma HeadMemory(s: Pipe, w: Work, core: Core, lines: set<Interrupt>, busBusy: bool)
    requires Reached(HeadOf(s), w.(frontEnd := HeadOf(s).frontEnd), core, lines, busBusy)
    requires w == RetirePhase(Start(s), s.latches.memWb)
    ensures var m := MemoryPhase(w, s.latches);
            !m.flushed && !m.memoryWait && m.hart == w.hart && m.stage.AtBoundary? && (s.latches.exMem.None? ==> m == w)
  {
    hide SyncInterrupts, BareMode, NextCycle, DataAccess, InterruptPhase, RetirePhase, TailTracks, MemoryStage, Committed;
    RetireStage(s);
    if s.latches.exMem.Some? {
      MemoryTracks(w.(frontEnd := HeadOf(s).frontEnd), HeadOf(s).latches, core, lines);
    }
  }

  lemma HeadSync(p: Pipe, core: Core, y: IdEx, lines: set<Interrupt>)
    requires HeadTracks(p, core, y)
    ensures HeadTracks(SyncedPipe(p, lines), Synced(core, lines), y) && WellPending(core)
    ensures Synced(Synced(core, lines), lines) == Synced(core, lines)
  {
    SyncTracks(HeadOf(p), core, lines);
    hide Tracks, SyncInterrupts, FetchedAt, Decode, WriteReg;
    ReadyCore(HeadOf(p), core);
    assert HeadOf(SyncedPipe(p, lines)) == SyncedPipe(HeadOf(p), lines);
  }

  /** With EX/MEM empty the operands of EX are the committed registers. */
  lemma OnlyCommittedOperands(s: Pipe, w: Work, y: IdEx)
    requires WellLatched(s.latches) && s.latches.idEx == Some(y) && s.latches.exMem.None? && OperandsLatched(s.hart, y)
    requires s.hart.regs[0] == 0 && w.hart == Committed(s.hart, s.latches.memWb)
    ensures Executing(w, s.latches)
         == ExecuteStage(y.d, ReadReg(w.hart.regs, Source(y.d.rs1)), ReadReg(w.hart.regs, Source(y.d.rs2)),
                         w.hart.privilege, w.hart.csrs)
  {
    hide ForwardedOperand, ExecuteStage;
    ForwardingCorrect(y.d.rs1, y.v1, s.hart, s.latches.memWb, None, None);
    ForwardingCorrect(y.d.rs2, y.v2, s.hart, s.latches.memWb, None, None);
  }

  lemma ExecuteTrapsAreExceptions(w: Work, l: Latches)
    requires WellLatched(l) && l.idEx.Some? && Executing(w, l).ExecuteTrap?
    ensures Executing(w, l).trap.ExceptionTrap?
  {
    hide ForwardedOperand, Alu, ImmediateRhs, BranchTaken, EffectiveAddress, Following, Even, ExecuteCsr, CsrIllegal,
         SfenceIllegal, WfiIllegal, SretIllegal, FenceFromOperands, EcallException;
  }

  lemma AloneTrapAgrees(s: Pipe, w: Work, core: Core, y: IdEx, lines: set<Interrupt>, busBusy: bool)
    requires Reached(HeadOf(s), w.(frontEnd := HeadOf(s).frontEnd), core, lines, busBusy) && HeadAt(s, y)
    requires WellLatched(s.latches)
    requires w == RetirePhase(Start(s), s.latches.memWb) && InterruptPhase(w, busBusy) == w && s.latches.exMem.None?
    requires var c := RunningCycle(s, busBusy); c.trap.Some? && c.stage.AtExecute?
    ensures var c := RunningCycle(s, busBusy);
            c.trap.value.ExceptionTrap? && CycleAgrees(c, NextCycle(core, lines, true))
  {
    hide SyncInterrupts, BareMode, RetirePhase, Committed, NextCycle, EnterTrap, RunningCycle, Decode, InterruptPhase,
         MemoryPhase, Executing, TailTracks, FetchedAt, Tracks, ExecuteStage, OperandsLatched, WellDecoded, RdMatchesKind;
    HeadMemory(s, w, core, lines, busBusy);
    ExecuteTrapShape(s, w, busBusy);
    ExecuteTrapsAreExceptions(w, s.latches);
    var c := RunningCycle(s, busBusy);
    DecodedFacts(y.d.raw, y.d.pc);
    OnlyCommittedOperands(s, w, y);
    ReferenceExecuteTraps(core, lines, y.d, c.trap.value);
    TrapReady(Core(core.machine.(bus := core.machine.bus.Called()), None), c.trap.value);
    EmptyTracks(c.pipe, NextCycle(core, lines, true).core);
  }

  /** A trap raised by EX is taken as the reference core takes it if and only if no older
      instruction is in EX/MEM. */
  lemma ExecuteTrapIsExact(p: Pipe, core: Core, y: IdEx, lines: set<Interrupt>, busBusy: bool)
    requires HeadTracks(p, core, y) && WellLatched(p.latches)
    requires NextPipe(p, lines, busBusy).trap.Some? && NextPipe(p, lines, busBusy).stage.AtExecute?
    ensures WellPending(core)
    ensures var c := NextPipe(p, lines, busBusy);
            CycleAgrees(c, Follow(core, lines, c)) <==> p.latches.exMem.None?
  {
    hide SyncInterrupts, RetirePhase, Committed, NextCycle, EnterTrap, RunningCycle, Decode, InterruptPhase,
         MemoryPhase, Executing, FetchedAt, Tracks, Retire, OperandsLatched, TailTracks, WbTracks, BareMode, ExecutePhase,
         DecodePhase, FetchPhase, WellDecoded, CycleAgrees;
    var s, z := SyncedPipe(p, lines), Synced(core, lines);
    HeadSync(p, core, y, lines);
    ReadyCore(HeadOf(s), z);
    var w := RetirePhase(Start(s), s.latches.memWb);
    var r := Retire(z, lines, s.latches.memWb.Some?).core;
    NotHalted(s, z, y);
    HeadReaches(s, z, y, lines, busBusy);
    SameRetire(core, lines, s.latches.memWb.Some?);
    HeadMemory(s, w, r, lines, busBusy);
    ExecuteTrapShape(s, w, busBusy);
    ExecuteTrapsAreExceptions(MemoryPhase(w, s.latches), s.latches);
    if s.latches.exMem.None? {
      AloneTrapAgrees(s, w, r, y, lines, busBusy);
    } else {
      OlderDisagrees(HeadOf(s), w.(frontEnd := HeadOf(s).frontEnd), r, lines, busBusy);
      TrapsDiffer(NextPipe(p, lines, busBusy), NextCycle(r, lines, true));
    }
  }

  lemma TrapsDiffer(c: PipeCycle, f: CoreCycle)
    requires c.trap.Some? && f.trap.None?
    ensures !CycleAgrees(c, f)
  {
  }

  lemma NotHalted(s: Pipe, core: Core, y: IdEx)
    requires HeadTracks(s, core, y)
    ensures !s.hart.halted && s.hart.regs[0] == 0
  {
    hide TailTracks, WbTracks, FetchedAt, Decode, BareMode;
  }
}
