/** A program on which a wait for memory makes the pipeline compute a wrong value. */
module PipelineExamples {
  import opened Wrappers
  import opened Isa
  import opened CsrState
  import opened CpuBus
  import opened Mmu
  import opened Exec
  import opened WalkerRuns
  import opened Reference
  import opened Pipeline
  import opened PipelineProof

  /** addi x1, x0, 5 */
  const ADDI: Word := 0x0050_0093
  /** lw x3, 0(x0) */
  const LW: Word := 0x0000_2183
  /** add x2, x1, x1 */
  const ADD: Word := 0x0010_8133

  const ADDI_DECODED: Decoded := Decoded(ADDI, 0, OpImm(Add), Some(1), Some(0), None, 5, None)
  const LW_DECODED: Decoded := Decoded(LW, 4, Load(LoadWord), Some(3), Some(0), None, 0, None)
  const ADD_DECODED: Decoded := Decoded(ADD, 8, Op(Add), Some(2), Some(1), Some(1), 0, None)

  lemma Decodes()
    ensures Decode(ADDI, 0) == Some(ADDI_DECODED)
    ensures Decode(LW, 4) == Some(LW_DECODED)
    ensures Decode(ADD, 8) == Some(ADD_DECODED)
  {
  }

  const PROGRAM: Memory := map[Cell(0) := ADDI, Cell(4) := LW, Cell(8) := ADD]

  /** The bus answers Busy to the fourth and fifth calls. */
  const SLOW: nat -> bool := (call: nat) => 3 <= call < 5

  const LOADING: Outcome := Outcome(None, None, None, Some(0), 0, 8)

  const TABLE: Predictor := [1]

  /** The addi is about to be written back, the lw is in MEM and the add, which read x1
      before the addi wrote it, waits in ID/EX. */
  const WAITING: Pipe := Pipe(
    12, ResetHart(0), RESET_WALKER, Bus(PROGRAM, {}, 4, SLOW), false, TABLE,
    Latches(None, Some(IdEx(ADD_DECODED, 0, 0, 12, false)), Some(ExMem(LW_DECODED, LOADING)),
            Some(MemWb(ADDI_DECODED, Some(5), None, None, 4))))

  lemma CellAddresses()
    ensures CellOf(0) == Cell(0) && CellOf(4) == Cell(4) && CellOf(8) == Cell(8)
    ensures WordAligned(0) && WordAligned(4) && WordAligned(8) && WordAligned(12)
  {
  }

  lemma ProgramLoaded()
    ensures InstrAt(PROGRAM, ADDI_DECODED) && InstrAt(PROGRAM, LW_DECODED) && InstrAt(PROGRAM, ADD_DECODED)
  {
    Decodes();
    CellAddresses();
    hide Decode, CellOf, WordAligned;
  }

  lemma Outcomes(h: Hart)
    requires h.regs[0] == 0
    ensures ComputedFor(h, LW_DECODED) == LOADING
    ensures ComputedFor(h, ADDI_DECODED) == Outcome(Some(5), None, None, None, 0, 4)
  {
    assert EffectiveAddress(0, 0) == 0 && Following(4) == 8 && Following(0) == 4;
    assert Alu(Add, 0, 5) == 5;
    hide EffectiveAddress, Following, Alu;
  }

  const REFERENCE: Core := ResetCore(0, ZeroWait(WAITING.bus))

  lemma WaitingWriteBack()
    ensures WbTracks(REFERENCE, WAITING.latches.memWb, PROGRAM)
  {
    ProgramLoaded();
    Outcomes(WAITING.hart);
    hide InstrAt, ComputedFor, LoadValue, StoreValue;
  }

  lemma WaitingTail()
    ensures TailTracks(Committed(WAITING.hart, WAITING.latches.memWb), PROGRAM, WAITING.latches, WAITING.frontEnd)
  {
    ProgramLoaded();
    var h := Committed(WAITING.hart, WAITING.latches.memWb);
    assert h.pc == 4 && h.regs[0] == 0;
    Outcomes(h);
    hide InstrAt, ComputedFor, FetchedAt, Committed;
  }

  lemma WaitingReady()
    ensures CoreReady(REFERENCE) && OperandsLatched(WAITING.hart, WAITING.latches.idEx.value)
  {
  }

  /** Everything so far is as the reference core has it. */
  lemma WaitingTracks()
    ensures Tracks(WAITING, REFERENCE)
  {
    WaitingWriteBack();
    WaitingTail();
    WaitingReady();
    hide WbTracks, TailTracks, CoreReady, OperandsLatched, ResetHart, InstrAt, Committed;
  }

  /* ---------- from reset ---------- */

  const START: Bus := Bus(PROGRAM, {}, 0, SLOW)

  const RESET: Pipe := ResetPipe(0, START, TABLE)

  const FETCHED_ADDI: IfId := IfId(0, ADDI, 4, false)
  const FETCHED_LW: IfId := IfId(4, LW, 8, false)
  const FETCHED_ADD: IfId := IfId(8, ADD, 12, false)

  const ADDED: Outcome := Outcome(Some(5), None, None, None, 0, 4)

  const AFTER_ONE: Pipe := RESET.(frontEnd := 4, bus := START.(calls := 1), latches := Latches(Some(FETCHED_ADDI), None, None, None))
  const AFTER_TWO: Pipe := RESET.(frontEnd := 8, bus := START.(calls := 2),
    latches := Latches(Some(FETCHED_LW), Some(IdEx(ADDI_DECODED, 0, 0, 4, false)), None, None))
  const AFTER_THREE: Pipe := RESET.(frontEnd := 12, bus := START.(calls := 3),
    latches := Latches(Some(FETCHED_ADD), Some(IdEx(LW_DECODED, 0, 0, 8, false)), Some(ExMem(ADDI_DECODED, ADDED)), None))

  /** No interrupt line is up, so nothing changes as the lines are sampled. */
  lemma ResetSynced()
    ensures SyncInterrupts(ResetHart(0).csrs, {}) == ResetHart(0).csrs && BareMode(ResetHart(0).csrs)
    ensures var h := ResetHart(0); h.pc == 0 && h.regs == RESET_REGISTERS && h.privilege.Machine? && !h.halted
  {
  }

  lemma FetchesFrom(bus: Bus, c: Csrs, p: Privilege)
    requires BareMode(c) && bus.mem == PROGRAM && bus.busy == SLOW && bus.readOnly == {}
    ensures bus.calls == 0 ==> FetchStage(RESET_WALKER, bus, c, p, 0, TABLE) == Fetched(RESET_WALKER, bus.Called(), FetchAdvance(FETCHED_ADDI))
    ensures bus.calls == 1 ==> FetchStage(RESET_WALKER, bus, c, p, 4, TABLE) == Fetched(RESET_WALKER, bus.Called(), FetchAdvance(FETCHED_LW))
    ensures bus.calls == 2 ==> FetchStage(RESET_WALKER, bus, c, p, 8, TABLE) == Fetched(RESET_WALKER, bus.Called(), FetchAdvance(FETCHED_ADD))
    ensures bus.calls == 3 ==> FetchStage(RESET_WALKER, bus, c, p, 12, TABLE) == Fetched(RESET_WALKER, bus.Called(), FetchStall)
  {
    hide Translate, MakeRequest, BareMode, CellOf, WordAligned, FaultTrap, PredictFromRaw;
    CellAddresses();
    Predictions();
    BareTranslate(RESET_WALKER, bus, c, p, 0, InstructionAccess);
    BareTranslate(RESET_WALKER, bus, c, p, 4, InstructionAccess);
    BareTranslate(RESET_WALKER, bus, c, p, 8, InstructionAccess);
    BareTranslate(RESET_WALKER, bus, c, p, 12, InstructionAccess);
  }

  lemma Predictions()
    ensures PredictFromRaw(TABLE, 0, ADDI) == Prediction(false, 4)
    ensures PredictFromRaw(TABLE, 4, LW) == Prediction(false, 8)
    ensures PredictFromRaw(TABLE, 8, ADD) == Prediction(false, 12)
  {
  }

  lemma FirstCycle()
    ensures NextPipe(RESET, {}, true).pipe == AFTER_ONE
  {
    hide SyncInterrupts, BareMode, FetchStage, Decode, ExecuteStage, MemoryStage, PROGRAM, ResetHart;
    ResetSynced();
    FetchesFrom(START, ResetHart(0).csrs, Machine);
  }

  lemma SecondCycle()
    ensures NextPipe(AFTER_ONE, {}, true).pipe == AFTER_TWO
  {
    hide SyncInterrupts, BareMode, FetchStage, Decode, ExecuteStage, MemoryStage, PROGRAM, ResetHart;
    ResetSynced();
    Decodes();
    FetchesFrom(AFTER_ONE.bus, ResetHart(0).csrs, Machine);
  }

  lemma ThirdCycle()
    ensures NextPipe(AFTER_TWO, {}, true).pipe == AFTER_THREE
  {
    hide SyncInterrupts, BareMode, FetchStage, Decode, ExecuteStage, MemoryStage, PROGRAM, ResetHart;
    ResetSynced();
    Decodes();
    Executions(ResetHart(0).csrs);
    FetchesFrom(AFTER_TWO.bus, ResetHart(0).csrs, Machine);
  }

  lemma Executions(c: Csrs)
    ensures ExecuteStage(ADDI_DECODED, 0, 0, Machine, c) == Advance(ADDED)
    ensures ExecuteStage(LW_DECODED, 0, 0, Machine, c) == Advance(LOADING)
  {
    assert EffectiveAddress(0, 0) == 0 && Following(4) == 8 && Following(0) == 4 && Alu(Add, 0, 5) == 5;
    hide EffectiveAddress, Following, Alu;
  }

  const ADDI_RESULT: MemWb := MemWb(ADDI_DECODED, Some(5), None, None, 4)

  lemma AddiPasses(walker: Walker, bus: Bus, c: Csrs)
    ensures MemoryStage(walker, bus, c, Machine, ExMem(ADDI_DECODED, ADDED)) == Accessed(walker, bus, MemAdvance(ADDI_RESULT))
    ensures ForwardedOperand(LW_DECODED.rs1, 0, Some(ExMem(ADDI_DECODED, ADDED)), None) == 0
    ensures ForwardedOperand(LW_DECODED.rs2, 0, Some(ExMem(ADDI_DECODED, ADDED)), None) == 0
  {
  }

  /** The fourth cycle up to EX. */
  lemma FourthExecutes()
    ensures ExecutedWork(AFTER_THREE, true)
         == Start(AFTER_THREE).(next := Latches(None, None, Some(IN_MEMORY), Some(ADDI_RESULT)))
  {
    hide BareMode, ExecuteStage, PROGRAM, ResetHart, MemoryStage, ForwardedOperand, TranslationBarrier;
    ResetSynced();
    AddiPasses(RESET_WALKER, AFTER_THREE.bus, ResetHart(0).csrs);
    NoBarriers();
    Executions(ResetHart(0).csrs);
  }

  lemma FreshRegisters()
    ensures ReadReg(RESET_REGISTERS, 0) == 0 && ReadReg(RESET_REGISTERS, 1) == 0
  {
  }

  lemma FourthCycle()
    ensures NextPipe(AFTER_THREE, {}, true).pipe == WAITING
  {
    hide SyncInterrupts, BareMode, FetchStage, Decode, PROGRAM, ResetHart, ExecutedWork, ExecuteStage, TranslationBarrier,
         EnterTrap, ReadReg;
    assert ReadReg(RESET_REGISTERS, 0) == 0 && ReadReg(RESET_REGISTERS, 1) == 0 by { FreshRegisters(); }
    ResetSynced();
    Decodes();
    FourthExecutes();
    FetchesFrom(AFTER_THREE.bus, ResetHart(0).csrs, Machine);
  }

  const IN_MEMORY: ExMem := ExMem(LW_DECODED, LOADING)

  lemma FirstLoadWaits(bus: Bus)
    requires bus.mem == PROGRAM && bus.busy == SLOW
    ensures bus.calls == 4 ==> DataAccess(RESET_WALKER, bus, IN_MEMORY) == Accessed(RESET_WALKER, bus.Called(), MemStall)
    ensures bus.calls == 5 ==>
      DataAccess(RESET_WALKER, bus, IN_MEMORY) == Accessed(RESET_WALKER, bus.Called(), Passed(IN_MEMORY, Some(ADDI)))
  {
    CellAddresses();
    hide CellOf, WordAligned;
  }

  const ADD_WAITING: Option<IdEx> := Some(IdEx(ADD_DECODED, 0, 0, 12, false))

  /** After the wait: x1 is 5, and the add still holds the 0 it read before. */
  predicate Waited(p: Pipe) {
    p.hart.regs[1] == 5 && p.hart.regs[0] == 0 && !p.hart.halted && BareMode(p.hart.csrs) && !p.barrier &&
    p.walker == RESET_WALKER && p.bus.mem == PROGRAM && p.bus.calls == 5 &&
    p.latches == Latches(None, ADD_WAITING, Some(IN_MEMORY), None)
  }

  lemma WaitingRetires(h: Hart)
    requires h.pc == 0 && h.regs == RESET_REGISTERS && !h.halted
    ensures var w := RetirePhase(Start(WAITING.(hart := h)), WAITING.latches.memWb);
            w == Start(WAITING.(hart := h)).(hart := w.hart, commit := w.commit) && w.hart.regs[1] == 5 &&
            w.hart.regs[0] == 0 && w.hart.csrs == h.csrs && !w.hart.halted
  {
  }

  lemma WaitingIsStale()
    ensures Stale(WAITING.latches)
  {
  }

  /** One wait for memory takes the pipeline of `WaitingTracks` to a `Waited` one. */
  lemma WaitingCycle()
    ensures Waited(NextPipe(WAITING, {}, true).pipe) && NextPipe(WAITING, {}, true).pipe.bus.busy == SLOW
  {
    var s := SyncedPipe(WAITING, {});
    SyncFacts(WAITING.hart.csrs, {});
    WaitingReady();
    hide SyncInterrupts, BareMode, MemoryStage, DataAccess, RetirePhase, PendingInterrupt, Executing, Decode, FetchStage,
         ADDI_DECODED, ADD_DECODED, PROGRAM;
    WaitingRetires(s.hart);
    assert s == WAITING.(hart := s.hart);
    var w := RetirePhase(Start(s), s.latches.memWb);
    BareMemoryStage(w.walker, w.bus, w.hart.csrs, w.hart.privilege, IN_MEMORY);
    FirstLoadWaits(w.bus);
  }

  lemma AddValues(p: Privilege, c: Csrs, h: Hart)
    requires h.regs[1] == 5
    ensures ExecuteStage(ADD_DECODED, 0, 0, p, c) == Advance(Outcome(Some(0), None, None, None, 0, 12))
    ensures ComputedFor(h, ADD_DECODED).value == Some(10)
  {
    assert Alu(Add, 0, 0) == 0 && Alu(Add, 5, 5) == 10 && Following(8) == 12;
    hide Alu, Following;
  }

  lemma NothingForwarded()
    ensures ForwardedOperand(ADD_DECODED.rs1, 0, Some(IN_MEMORY), None) == 0
    ensures ForwardedOperand(ADD_DECODED.rs2, 0, Some(IN_MEMORY), None) == 0
  {
  }

  /** From there EX computes 0 for the add, where the committed registers give 10. */
  lemma StaleOperandIsUsed(p: Pipe)
    requires Waited(p) && p.bus.busy == SLOW
    ensures ComputedFor(p.hart, ADD_DECODED).value == Some(10)
    ensures var c := NextPipe(p, {}, true);
            c.pipe.latches.exMem.Some? && c.pipe.latches.exMem.value.d == ADD_DECODED &&
            c.pipe.latches.exMem.value.out.value == Some(0)
  {
    var s := SyncedPipe(p, {});
    SyncFacts(p.hart.csrs, {});
    hide SyncInterrupts, BareMode, MemoryStage, DataAccess, PendingInterrupt, ExecuteStage, Decode, FetchStage,
         ADDI_DECODED, ADD_DECODED, LW_DECODED, PROGRAM, ForwardedOperand, TranslationBarrier;
    BareMemoryStage(s.walker, s.bus, s.hart.csrs, s.hart.privilege, IN_MEMORY);
    FirstLoadWaits(s.bus);
    AddValues(s.hart.privilege, s.hart.csrs, s.hart);
    NothingForwarded();
    KindsOfExample();
  }

  lemma NoBarriers()
    ensures !TranslationBarrier(LW_DECODED, None)
  {
  }

  lemma KindsOfExample()
    ensures !ADD_DECODED.kind.Branch? && !TranslationBarrier(ADD_DECODED, None)
  {
  }

  ghost predicate Leads(p: Pipe, q: Pipe) { WellLatched(p.latches) && NextPipe(p, {}, true).pipe == q }

  /** A run from reset on which the pipeline computes a wrong value: the lw waits once for
      memory while the addi retires, and the add then computes 0 where the registers
      already committed give 10. */
  lemma StaleFromReset()
    ensures Leads(RESET, AFTER_ONE) && Leads(AFTER_ONE, AFTER_TWO) && Leads(AFTER_TWO, AFTER_THREE) && Leads(AFTER_THREE, WAITING)
    ensures var p := NextPipe(WAITING, {}, true).pipe;
            WellLatched(p.latches) && ComputedFor(p.hart, ADD_DECODED).value == Some(10) &&
            var l := NextPipe(p, {}, true).pipe.latches;
            l.exMem.Some? && l.exMem.value.d == ADD_DECODED && l.exMem.value.out.value == Some(0)
  {
    hide NextPipe, RESET, AFTER_ONE, AFTER_TWO, AFTER_THREE;
    LatchedWell();
    FirstCycle();
    SecondCycle();
    ThirdCycle();
    FourthCycle();
    WaitingCycle();
    StaleOperandIsUsed(NextPipe(WAITING, {}, true).pipe);
  }

  lemma LatchedWell()
    ensures WellLatched(RESET.latches) && WellLatched(AFTER_ONE.latches) && WellLatched(AFTER_TWO.latches)
    ensures WellLatched(AFTER_THREE.latches) && WellLatched(WAITING.latches)
  {
  }
}
