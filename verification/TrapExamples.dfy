/** Three short programs on which a trap raised in IF, ID or EX overtakes the instruction
    ahead of it. */
module TrapExamples {
  import opened Wrappers
  import opened Isa
  import opened CsrState
  import opened CpuBus
  import opened Mmu
  import opened Exec
  import opened WalkerRuns
  import opened Pipeline
  import opened PipelineProof
  import opened PipelineExamples

  /** addi x1, x0, 5 and then the given word, if any, and an add. */
  function ProgramOf(second: Option<Word>): Memory {
    if second.None? then map[Cell(0) := ADDI] else map[Cell(0) := ADDI, Cell(4) := second.value, Cell(8) := ADD]
  }

  function BusOf(second: Option<Word>, calls: nat): Bus { Bus(ProgramOf(second), {}, calls, NEVER) }

  function ResetWith(second: Option<Word>): Pipe { ResetPipe(0, BusOf(second, 0), TABLE) }

  function FetchedOne(second: Option<Word>): Pipe {
    ResetWith(second).(frontEnd := 4, bus := BusOf(second, 1), latches := Latches(Some(FETCHED_ADDI), None, None, None))
  }

  lemma FetchesFirst(second: Option<Word>, c: Csrs)
    requires BareMode(c)
    ensures FetchStage(RESET_WALKER, BusOf(second, 0), c, Machine, 0, TABLE)
         == Fetched(RESET_WALKER, BusOf(second, 1), FetchAdvance(FETCHED_ADDI))
  {
    hide Translate, MakeRequest, BareMode, CellOf, WordAligned, FaultTrap, PredictFromRaw;
    CellAddresses();
    Predictions();
    BareTranslate(RESET_WALKER, BusOf(second, 0), c, Machine, 0, InstructionAccess);
  }

  lemma CycleOne(second: Option<Word>)
    ensures NextPipe(ResetWith(second), {}, true).pipe == FetchedOne(second)
  {
    hide SyncInterrupts, BareMode, FetchStage, Decode, ExecuteStage, MemoryStage, ProgramOf, ResetHart;
    ResetSynced();
    FetchesFirst(second, ResetHart(0).csrs);
  }

  /* ---------- a fetch fault ---------- */

  const NOT_MAPPED: Trap := ExceptionTrap(InstructionAccessFault(4))

  lemma FetchFaults(c: Csrs)
    requires BareMode(c)
    ensures FetchStage(RESET_WALKER, BusOf(None, 1), c, Machine, 4, TABLE)
         == Fetched(RESET_WALKER, BusOf(None, 2), FetchTrap(NOT_MAPPED))
  {
    hide Translate, MakeRequest, BareMode, CellOf, WordAligned, PredictFromRaw;
    CellAddresses();
    BareTranslate(RESET_WALKER, BusOf(None, 1), c, Machine, 4, InstructionAccess);
  }

  lemma FetchFaultTaken()
    ensures var c := NextPipe(FetchedOne(None), {}, true);
            c.trap == Some(NOT_MAPPED) && c.stage.AtFetch? && c.pipe.hart.regs[1] == 0 &&
            c.pipe.hart == ApplyTrap(ResetHart(0), NOT_MAPPED, 4)
  {
    hide SyncInterrupts, BareMode, FetchStage, Decode, ExecuteStage, MemoryStage, ProgramOf, ResetHart, EnterTrap;
    ResetSynced();
    Decodes();
    FetchFaults(ResetHart(0).csrs);
  }

  /** The word after the addi is not mapped: the fetch fault is taken before the addi has
      reached EX, with x1 still 0. */
  lemma FetchFaultOvertakes()
    ensures Leads(ResetWith(None), FetchedOne(None))
    ensures var c := NextPipe(FetchedOne(None), {}, true);
            c.trap == Some(NOT_MAPPED) && c.stage.AtFetch? && c.pipe.hart.regs[1] == 0 &&
            c.pipe.hart == ApplyTrap(ResetHart(0), NOT_MAPPED, 4)
  {
    hide NextPipe, PredictFromRaw, Decode;
    CycleOne(None);
    FetchFaultTaken();
  }

  /* ---------- an illegal instruction ---------- */

  const ILLEGAL: Word := 0
  /** ecall */
  const ECALL: Word := 0x0000_0073

  const ECALL_DECODED: Decoded := Decoded(ECALL, 4, System(Ecall), None, None, None, 0, None)

  lemma DecodesSecond()
    ensures Decode(ILLEGAL, 4) == None && Decode(ECALL, 4) == Some(ECALL_DECODED)
    ensures PredictFromRaw(TABLE, 4, ILLEGAL) == PredictFromRaw(TABLE, 4, ECALL) == Prediction(false, 8)
  {
  }

  function FetchedTwo(second: Word): Pipe {
    ResetWith(Some(second)).(frontEnd := 8, bus := BusOf(Some(second), 2),
      latches := Latches(Some(IfId(4, second, 8, false)), Some(IdEx(ADDI_DECODED, 0, 0, 4, false)), None, None))
  }

  lemma FetchesSecond(second: Word, c: Csrs)
    requires BareMode(c) && PredictFromRaw(TABLE, 4, second) == Prediction(false, 8)
    ensures FetchStage(RESET_WALKER, BusOf(Some(second), 1), c, Machine, 4, TABLE)
         == Fetched(RESET_WALKER, BusOf(Some(second), 2), FetchAdvance(IfId(4, second, 8, false)))
    ensures FetchStage(RESET_WALKER, BusOf(Some(second), 2), c, Machine, 8, TABLE)
         == Fetched(RESET_WALKER, BusOf(Some(second), 3), FetchAdvance(FETCHED_ADD))
  {
    hide Translate, MakeRequest, BareMode, CellOf, WordAligned, FaultTrap, PredictFromRaw;
    CellAddresses();
    Predictions();
    BareTranslate(RESET_WALKER, BusOf(Some(second), 1), c, Machine, 4, InstructionAccess);
    BareTranslate(RESET_WALKER, BusOf(Some(second), 2), c, Machine, 8, InstructionAccess);
  }

  lemma CycleTwo(second: Word)
    requires PredictFromRaw(TABLE, 4, second) == Prediction(false, 8)
    ensures NextPipe(FetchedOne(Some(second)), {}, true).pipe == FetchedTwo(second)
  {
    hide SyncInterrupts, BareMode, FetchStage, Decode, ExecuteStage, MemoryStage, ProgramOf, ResetHart, PredictFromRaw;
    ResetSynced();
    Decodes();
    FetchesSecond(second, ResetHart(0).csrs);
  }

  const EXECUTED_ADDI: ExMem := ExMem(ADDI_DECODED, ADDED)

  /** The third cycle up to EX. */
  lemma AddiExecutes(second: Word)
    ensures ExecutedWork(FetchedTwo(second), true)
         == Start(FetchedTwo(second)).(next := Latches(None, None, Some(EXECUTED_ADDI), None))
  {
    hide BareMode, ExecuteStage, ProgramOf, ResetHart, MemoryStage, TranslationBarrier;
    ResetSynced();
    NothingToForward();
    Executions(ResetHart(0).csrs);
    NoBarriers();
  }

  lemma NothingToForward()
    ensures ForwardedOperand(ADDI_DECODED.rs1, 0, None, None) == 0 && ForwardedOperand(ADDI_DECODED.rs2, 0, None, None) == 0
    ensures !TranslationBarrier(ADDI_DECODED, None)
  {
  }

  const ILLEGAL_TRAP: Trap := ExceptionTrap(IllegalInstruction(ILLEGAL))

  lemma IllegalTaken()
    ensures var c := NextPipe(FetchedTwo(ILLEGAL), {}, true);
            c.trap == Some(ILLEGAL_TRAP) && c.stage.AtDecode? && c.pipe.hart.regs[1] == 0 &&
            c.pipe.hart == ApplyTrap(ResetHart(0), ILLEGAL_TRAP, 4)
  {
    hide SyncInterrupts, BareMode, FetchStage, Decode, ExecutedWork, ProgramOf, ResetHart, EnterTrap;
    ResetSynced();
    DecodesSecond();
    AddiExecutes(ILLEGAL);
  }

  /** The word after the addi is illegal: the trap is taken with the addi still in EX and
      x1 still 0. */
  lemma IllegalOvertakes()
    ensures Leads(ResetWith(Some(ILLEGAL)), FetchedOne(Some(ILLEGAL))) && Leads(FetchedOne(Some(ILLEGAL)), FetchedTwo(ILLEGAL))
    ensures var c := NextPipe(FetchedTwo(ILLEGAL), {}, true);
            c.trap == Some(ILLEGAL_TRAP) && c.stage.AtDecode? && c.pipe.hart.regs[1] == 0 &&
            c.pipe.hart == ApplyTrap(ResetHart(0), ILLEGAL_TRAP, 4)
  {
    hide NextPipe, PredictFromRaw, Decode;
    DecodesSecond();
    CycleOne(Some(ILLEGAL));
    CycleTwo(ILLEGAL);
    IllegalTaken();
  }

  /* ---------- an environment call ---------- */

  const ECALL_TRAP: Trap := ExceptionTrap(EcallException(Machine))

  const FETCHED_THREE: Pipe := ResetWith(Some(ECALL)).(frontEnd := 12, bus := BusOf(Some(ECALL), 3),
    latches := Latches(Some(FETCHED_ADD), Some(IdEx(ECALL_DECODED, 0, 0, 8, false)), Some(EXECUTED_ADDI), None))

  lemma CycleThree()
    ensures NextPipe(FetchedTwo(ECALL), {}, true).pipe == FETCHED_THREE
  {
    hide SyncInterrupts, BareMode, FetchStage, Decode, ExecutedWork, ProgramOf, ResetHart, PredictFromRaw, ReadReg;
    ResetSynced();
    DecodesSecond();
    AddiExecutes(ECALL);
    FreshRegisters();
    FetchesSecond(ECALL, ResetHart(0).csrs);
  }

  lemma EcallTraps(v1: Word, v2: Word, c: Csrs)
    ensures ExecuteStage(ECALL_DECODED, v1, v2, Machine, c) == ExecuteTrap(ECALL_TRAP)
  {
  }

  lemma EcallTaken()
    ensures var c := NextPipe(FETCHED_THREE, {}, true);
            c.trap == Some(ECALL_TRAP) && c.stage.AtExecute? && c.pipe.hart.regs[1] == 0 &&
            c.pipe.hart == ApplyTrap(ResetHart(0), ECALL_TRAP, 4) && c.pipe.latches.memWb == Some(ADDI_RESULT)
  {
    hide SyncInterrupts, BareMode, FetchStage, Decode, ExecuteStage, MemoryStage, ProgramOf, ResetHart, EnterTrap, ForwardedOperand;
    ResetSynced();
    AddiPasses(RESET_WALKER, FETCHED_THREE.bus, ResetHart(0).csrs);
    var l := FETCHED_THREE.latches;
    EcallTraps(ForwardedOperand(ECALL_DECODED.rs1, 0, l.exMem, l.memWb),
               ForwardedOperand(ECALL_DECODED.rs2, 0, l.exMem, l.memWb), ResetHart(0).csrs);
  }

  /** The ecall after the addi traps in EX with the addi still in MEM and x1 still 0. */
  lemma EcallOvertakes()
    ensures Leads(ResetWith(Some(ECALL)), FetchedOne(Some(ECALL))) && Leads(FetchedOne(Some(ECALL)), FetchedTwo(ECALL))
    ensures Leads(FetchedTwo(ECALL), FETCHED_THREE)
    ensures var c := NextPipe(FETCHED_THREE, {}, true);
            c.trap == Some(ECALL_TRAP) && c.stage.AtExecute? && c.pipe.hart.regs[1] == 0 &&
            c.pipe.hart == ApplyTrap(ResetHart(0), ECALL_TRAP, 4) && c.pipe.latches.memWb == Some(ADDI_RESULT)
  {
    hide NextPipe, PredictFromRaw, Decode;
    DecodesSecond();
    CycleOne(Some(ECALL));
    CycleTwo(ECALL);
    CycleThree();
    EcallTaken();
  }
}
