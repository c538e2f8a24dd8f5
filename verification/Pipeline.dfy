/** The five-stage in-order pipeline. One cycle runs the stages from WB back to IF over
    a working record; the class updates the same fields in place. */
module Pipeline {
  import opened Wrappers
  import opened Isa
  import opened CsrState
  import opened CpuBus
  import opened Mmu
  import opened Exec

  datatype IfId = IfId(pc: Word, raw: Word, predicted: Word, taken: bool)
  datatype IdEx = IdEx(d: Decoded, v1: Word, v2: Word, predicted: Word, taken: bool)

  datatype Latches = Latches(ifId: Option<IfId>, idEx: Option<IdEx>, exMem: Option<ExMem>, memWb: Option<MemWb>)

  const EMPTY_LATCHES: Latches := Latches(None, None, None, None)

  /* ---------- branch prediction ---------- */

  type Counter = n: nat | n <= 3

  /** A table of two-bit saturating counters. */
  type Predictor = s: seq<Counter> | |s| > 0 witness [1]

  function Slot(pc: Word, entries: nat): (k: nat)
    requires entries > 0
    ensures k < entries
  {
    ((pc >> 2) as nat) % entries
  }

  datatype Prediction = Prediction(taken: bool, target: Word)

  function Predict(table: Predictor, pc: Word, fallthrough: Word, target: Word): Prediction {
    if table[Slot(pc, |table|)] >= 2 then Prediction(true, target) else Prediction(false, fallthrough)
  }

  function Train(table: Predictor, pc: Word, taken: bool): Predictor {
    var k := Slot(pc, |table|);
    var c := table[k];
    table[k := if taken then (if c == 3 then 3 else c + 1) else (if c == 0 then 0 else c - 1)]
  }

  function PredictFromRaw(table: Predictor, pc: Word, raw: Word): Prediction {
    if raw & 0x7f == 0x63 then Predict(table, pc, Following(pc), EffectiveAddress(pc, ImmB(raw)))
    else if raw & 0x7f == 0x6f then Prediction(true, EffectiveAddress(pc, ImmJ(raw)))
    else Prediction(false, Following(pc))
  }

  /* ---------- the instruction-fetch stage ---------- */

  datatype FetchEvent = FetchAdvance(payload: IfId) | FetchStall | FetchTrap(trap: Trap)

  datatype Fetched = Fetched(walker: Walker, bus: Bus, event: FetchEvent)

  function FetchStage(walker: Walker, bus: Bus, csrs: Csrs, p: Privilege, pc: Word, table: Predictor): Fetched {
    var t := Translate(walker, bus, MakeRequest(csrs, p, pc, InstructionAccess));
    match t.result
    case Stall => Fetched(t.walker, t.bus, FetchStall)
    case Faulted(trap) => Fetched(t.walker, t.bus, FetchTrap(trap))
    case PhysicalAddress(pa) =>
      var r := Fetch32(t.bus, pa);
      match r.answer
      case Err(fault) =>
        Fetched(t.walker, r.bus, if fault.Busy? then FetchStall else FetchTrap(FaultTrap(fault, pc, InstructionAccess)))
      case Ok(raw) =>
        var guess := PredictFromRaw(table, pc, raw);
        Fetched(t.walker, r.bus, FetchAdvance(IfId(pc, raw, guess.target, guess.taken)))
  }

  /* ---------- hazards ---------- */

  /** An operand in EX: the youngest result still in flight, or else what decode latched. */
  function ForwardedOperand(source: Option<Reg>, latched: Word, exMem: Option<ExMem>, memWb: Option<MemWb>): Word {
    if source.None? then latched
    else if source.value == 0 then 0
    else if exMem.Some? && exMem.value.d.rd == source && WritesBack(exMem.value.d) && exMem.value.out.value.Some? then
      exMem.value.out.value.value
    else if memWb.Some? && memWb.value.d.rd == source && memWb.value.value.Some? then memWb.value.value.value
    else latched
  }

  predicate RawHazard(producer: Option<Reg>, rs1: Option<Reg>, rs2: Option<Reg>) {
    producer.Some? && producer.value != 0 && (rs1 == producer || rs2 == producer)
  }

  predicate LoadUse(producer: Option<IdEx>, d: Decoded) {
    producer.Some? && producer.value.d.kind.Load? && RawHazard(producer.value.d.rd, d.rs1, d.rs2)
  }

  predicate TranslationBarrier(d: Decoded, csrWrite: Option<CsrWrite>) {
    d.kind == System(SfenceVma) || (csrWrite.Some? && csrWrite.value.address.Satp?)
  }

  predicate NeedsCsrSerialization(d: Decoded) {
    d.kind.Csr? || d.kind == System(Mret) || d.kind == System(Sret)
  }

  predicate CsrInFlight(l: Latches) {
    (l.idEx.Some? && l.idEx.value.d.kind.Csr?) ||
    (l.exMem.Some? && l.exMem.value.d.kind.Csr?) ||
    (l.memWb.Some? && l.memWb.value.d.kind.Csr?)
  }

  predicate DecodeStalls(l: Latches, d: Decoded) {
    LoadUse(l.idEx, d) || (NeedsCsrSerialization(d) && CsrInFlight(l))
  }

  /* ---------- the core ---------- */

  datatype Pipe = Pipe(
    frontEnd: Word, hart: Hart, walker: Walker, bus: Bus, barrier: bool, predictor: Predictor, latches: Latches)

  function ResetPipe(vector: Word, bus: Bus, predictor: Predictor): Pipe {
    Pipe(vector, ResetHart(vector), RESET_WALKER, bus, false, predictor, EMPTY_LATCHES)
  }

  predicate WellLatched(l: Latches) { l.idEx.Some? ==> WellDecoded(l.idEx.value.d) }

  datatype Stage = AtBoundary | AtMemory | AtExecute | AtDecode | AtFetch

  /** The local variables of one cycle. */
  datatype Work = Work(
    hart: Hart, walker: Walker, bus: Bus, predictor: Predictor, barrier: bool, frontEnd: Word, next: Latches,
    flushed: bool, memoryWait: bool, fetchStalled: bool, decodeStalled: bool,
    commit: Option<Commit>, trap: Option<Trap>, stage: Stage)

  function Start(p: Pipe): Work {
    Work(p.hart, p.walker, p.bus, p.predictor, p.barrier, p.frontEnd, EMPTY_LATCHES,
         false, false, false, false, None, None, AtBoundary)
  }

  function TakeTrap(w: Work, trap: Trap, pc: Word, stage: Stage): Work {
    var hart := ApplyTrap(w.hart, trap, pc);
    w.(hart := hart, frontEnd := hart.pc, flushed := true, trap := Some(trap), stage := stage)
  }

  function RetirePhase(w: Work, memWb: Option<MemWb>): Work {
    match memWb
    case None => w
    case Some(payload) =>
      var r := WriteBack(w.hart, w.walker, payload);
      w.(hart := r.hart, walker := r.walker, commit := Some(r.commit),
         barrier := if TranslationBarrier(payload.d, payload.csrWrite) then false else w.barrier)
  }

  function InterruptPhase(w: Work, busBusy: bool): Work {
    var due := if w.barrier || busBusy then None else PendingInterrupt(w.hart.csrs, w.hart.privilege);
    if due.Some? then TakeTrap(w, InterruptTrap(due.value), w.hart.pc, AtBoundary) else w
  }

  function MemoryPhase(w: Work, l: Latches): Work {
    if w.flushed || l.exMem.None? then w
    else
      var payload := l.exMem.value;
      var a := MemoryStage(w.walker, w.bus, w.hart.csrs, w.hart.privilege, payload);
      var w1 := w.(walker := a.walker, bus := a.bus, fetchStalled := UsesMemory(payload.d));
      match a.event
      case MemAdvance(result) => w1.(next := w1.next.(memWb := Some(result)))
      case MemStall =>
        w1.(memoryWait := true, fetchStalled := true, decodeStalled := l.ifId.Some?,
            next := w1.next.(exMem := Some(payload), idEx := l.idEx, ifId := l.ifId))
      case MemTrap(trap) => TakeTrap(w1, trap, payload.d.pc, AtMemory)
  }

  function Executing(w: Work, l: Latches): ExecuteEvent
    requires l.idEx.Some? && WellLatched(l)
  {
    var payload := l.idEx.value;
    ExecuteStage(payload.d, ForwardedOperand(payload.d.rs1, payload.v1, l.exMem, l.memWb),
                 ForwardedOperand(payload.d.rs2, payload.v2, l.exMem, l.memWb), w.hart.privilege, w.hart.csrs)
  }

  function ExecutePhase(w: Work, l: Latches): Work
    requires WellLatched(l)
  {
    if w.flushed || w.memoryWait || w.barrier || l.idEx.None? then w
    else
      var payload := l.idEx.value;
      match Executing(w, l)
      case ExecuteTrap(trap) => TakeTrap(w, trap, payload.d.pc, AtExecute)
      case Advance(outcome) =>
        var w1 := w.(next := w.next.(exMem := Some(ExMem(payload.d, outcome))),
                     predictor := if payload.d.kind.Branch?
                                  then Train(w.predictor, payload.d.pc, outcome.next != Following(payload.d.pc))
                                  else w.predictor);
        if TranslationBarrier(payload.d, outcome.csrWrite) then
          w1.(flushed := true, frontEnd := outcome.next, barrier := true)
        else if payload.predicted != outcome.next then w1.(flushed := true, frontEnd := outcome.next)
        else w1
  }

  function DecodePhase(w: Work, l: Latches): Work {
    if w.flushed || w.memoryWait then w
    else if w.barrier then
      w.(fetchStalled := true, decodeStalled := l.ifId.Some?, next := w.next.(ifId := l.ifId, idEx := l.idEx))
    else if l.ifId.None? then w
    else
      var payload := l.ifId.value;
      match Decode(payload.raw, payload.pc)
      case None => TakeTrap(w, ExceptionTrap(IllegalInstruction(payload.raw)), payload.pc, AtDecode)
      case Some(d) =>
        if DecodeStalls(l, d) then w.(decodeStalled := true, next := w.next.(ifId := Some(payload)))
        else
          w.(next := w.next.(idEx := Some(IdEx(d, ReadReg(w.hart.regs, Source(d.rs1)),
                                               ReadReg(w.hart.regs, Source(d.rs2)), payload.predicted, payload.taken))))
  }

  function FetchPhase(w: Work): Work {
    if w.flushed then w.(next := w.next.(ifId := None, idEx := None))
    else if w.memoryWait || w.decodeStalled || w.fetchStalled || w.barrier then w
    else
      var f := FetchStage(w.walker, w.bus, w.hart.csrs, w.hart.privilege, w.frontEnd, w.predictor);
      var w1 := w.(walker := f.walker, bus := f.bus);
      match f.event
      case FetchAdvance(payload) => w1.(next := w1.next.(ifId := Some(payload)), frontEnd := payload.predicted)
      case FetchStall => w1.(fetchStalled := true)
      case FetchTrap(trap) => TakeTrap(w1, trap, w.frontEnd, AtFetch)
  }

  datatype PipeCycle = PipeCycle(pipe: Pipe, commit: Option<Commit>, trap: Option<Trap>, stage: Stage)

  function Finished(w: Work): PipeCycle {
    PipeCycle(Pipe(w.frontEnd, w.hart, w.walker, w.bus, w.barrier, w.predictor, w.next), w.commit, w.trap, w.stage)
  }

  function HaltedCycle(p: Pipe, busBusy: bool): PipeCycle {
    var due := if busBusy then None else PendingInterrupt(p.hart.csrs, p.hart.privilege);
    if due.None? then PipeCycle(p, None, None, AtBoundary)
    else
      var hart := ApplyTrap(p.hart, InterruptTrap(due.value), p.hart.pc);
      PipeCycle(p.(hart := hart, frontEnd := hart.pc, latches := EMPTY_LATCHES), None,
                Some(InterruptTrap(due.value)), AtBoundary)
  }

  function SyncedPipe(p: Pipe, lines: set<Interrupt>): Pipe {
    p.(hart := p.hart.(csrs := SyncInterrupts(p.hart.csrs, lines)))
  }

  /** After WB and the interrupt check. */
  function AtBoundaryWork(p: Pipe, busBusy: bool): Work {
    InterruptPhase(RetirePhase(Start(p), p.latches.memWb), busBusy)
  }

  /** After MEM and EX as well. */
  function ExecutedWork(p: Pipe, busBusy: bool): Work
    requires WellLatched(p.latches)
  {
    ExecutePhase(MemoryPhase(AtBoundaryWork(p, busBusy), p.latches), p.latches)
  }

  function RunningCycle(p: Pipe, busBusy: bool): PipeCycle
    requires WellLatched(p.latches)
  {
    Finished(FetchPhase(DecodePhase(ExecutedWork(p, busBusy), p.latches)))
  }

  /** One clock cycle. */
  function NextPipe(p: Pipe, lines: set<Interrupt>, busBusy: bool): PipeCycle
    requires WellLatched(p.latches)
  {
    var s := SyncedPipe(p, lines);
    if s.hart.halted then HaltedCycle(s, busBusy) else RunningCycle(s, busBusy)
  }

  /* ---------- the core updated in place ---------- */

  class PipelineCore {
    var frontEndPc: Word
    var hart: Hart
    var walker: Walker
    var bus: Bus
    var translationBarrier: bool
    var predictor: Predictor
    var latches: Latches
    var lastCommit: Option<Commit>
    var lastTrap: Option<Trap>
    var trapStage: Stage

    function State(): Pipe
      reads this
    {
      Pipe(frontEndPc, hart, walker, bus, translationBarrier, predictor, latches)
    }

    constructor (vector: Word, system: Bus, table: Predictor)
      ensures State() == ResetPipe(vector, system, table)
    {
      frontEndPc, hart, walker, bus := vector, ResetHart(vector), RESET_WALKER, system;
      translationBarrier, predictor, latches := false, table, EMPTY_LATCHES;
      lastCommit, lastTrap, trapStage := None, None, AtBoundary;
    }

    /** The fields and a cycle's locals as one value. */
    ghost function Seen(nextFrontEnd: Word, barrier: bool, next: Latches, flushed: bool, memoryWait: bool,
                        fetchStalled: bool, decodeStalled: bool): Work
      reads this
    {
      Work(hart, walker, bus, predictor, barrier, nextFrontEnd, next, flushed, memoryWait, fetchStalled, decodeStalled,
           lastCommit, lastTrap, trapStage)
    }

    method EnterTrap(trap: Trap, pc: Word, stage: Stage)
      modifies this`hart, this`lastTrap, this`trapStage
      ensures hart == ApplyTrap(old(hart), trap, pc) && lastTrap == Some(trap) && trapStage == stage
    {
      hart, lastTrap, trapStage := ApplyTrap(hart, trap, pc), Some(trap), stage;
    }

    /** WB and the interrupt check. */
    method Retire(busBusy: bool) returns (nextFrontEnd: Word, barrier: bool, flushed: bool)
      requires lastCommit.None? && lastTrap.None? && trapStage.AtBoundary?
      modifies this`hart, this`walker, this`lastCommit, this`lastTrap, this`trapStage
      ensures Seen(nextFrontEnd, barrier, EMPTY_LATCHES, flushed, false, false, false)
           == AtBoundaryWork(old(State()), busBusy)
    {
      hide WriteBack, PendingInterrupt, ApplyTrap;
      nextFrontEnd, barrier, flushed := frontEndPc, translationBarrier, false;
      if latches.memWb.Some? {
        var payload := latches.memWb.value;
        var written := WriteBack(hart, walker, payload);
        hart, walker, lastCommit := written.hart, written.walker, Some(written.commit);
        if TranslationBarrier(payload.d, payload.csrWrite) { barrier := false; }
      }
      if !barrier && !busBusy {
        var due := PendingInterrupt(hart.csrs, hart.privilege);
        if due.Some? {
          EnterTrap(InterruptTrap(due.value), hart.pc, AtBoundary);
          nextFrontEnd, flushed := hart.pc, true;
        }
      }
    }

    /** MEM and EX. */
    method Execute(ghost before: Work, nextFrontEnd: Word, barrier: bool, flushed: bool)
      returns (front: Word, serializing: bool, next: Latches, flush: bool, memoryWait: bool, fetchStalled: bool,
               decodeStalled: bool)
      requires WellLatched(latches) && before == Seen(nextFrontEnd, barrier, EMPTY_LATCHES, flushed, false, false, false)
      modifies this`hart, this`walker, this`bus, this`predictor, this`lastTrap, this`trapStage
      ensures Seen(front, serializing, next, flush, memoryWait, fetchStalled, decodeStalled)
           == ExecutePhase(MemoryPhase(before, latches), latches)
    {
      hide MemoryStage, ExecuteStage, ForwardedOperand, Train, ApplyTrap, Following;
      front, serializing, next, flush := nextFrontEnd, barrier, EMPTY_LATCHES, flushed;
      memoryWait, fetchStalled, decodeStalled := false, false, false;
      if !flush && latches.exMem.Some? {
        var payload := latches.exMem.value;
        fetchStalled := UsesMemory(payload.d);
        var a := MemoryStage(walker, bus, hart.csrs, hart.privilege, payload);
        walker, bus := a.walker, a.bus;
        match a.event {
          case MemAdvance(result) => next := next.(memWb := Some(result));
          case MemStall =>
            memoryWait, fetchStalled, decodeStalled := true, true, latches.ifId.Some?;
            next := next.(exMem := Some(payload), idEx := latches.idEx, ifId := latches.ifId);
          case MemTrap(trap) =>
            EnterTrap(trap, payload.d.pc, AtMemory);
            front, flush := hart.pc, true;
        }
      }
      assert Seen(front, serializing, next, flush, memoryWait, fetchStalled, decodeStalled) == MemoryPhase(before, latches);
      if !flush && !memoryWait && !serializing && latches.idEx.Some? {
        var payload := latches.idEx.value;
        var rs1 := ForwardedOperand(payload.d.rs1, payload.v1, latches.exMem, latches.memWb);
        var rs2 := ForwardedOperand(payload.d.rs2, payload.v2, latches.exMem, latches.memWb);
        match ExecuteStage(payload.d, rs1, rs2, hart.privilege, hart.csrs) {
          case Advance(outcome) =>
            if payload.d.kind.Branch? {
              predictor := Train(predictor, payload.d.pc, outcome.next != Following(payload.d.pc));
            }
            var fence := TranslationBarrier(payload.d, outcome.csrWrite);
            if fence || payload.predicted != outcome.next {
              flush, front := true, outcome.next;
              if fence { serializing := true; }
            }
            next := next.(exMem := Some(ExMem(payload.d, outcome)));
          case ExecuteTrap(trap) =>
            EnterTrap(trap, payload.d.pc, AtExecute);
            front, flush := hart.pc, true;
        }
      }
    }

    /** ID. */
    method DecodeNext(ghost before: Work, nextFrontEnd: Word, barrier: bool, nextLatches: Latches, flush: bool,
                      memoryWait: bool, fetchStall: bool, decodeStall: bool)
      returns (front: Word, next: Latches, flushed: bool, fetchStalled: bool, decodeStalled: bool)
      requires before == Seen(nextFrontEnd, barrier, nextLatches, flush, memoryWait, fetchStall, decodeStall)
      modifies this`hart, this`lastTrap, this`trapStage
      ensures Seen(front, barrier, next, flushed, memoryWait, fetchStalled, decodeStalled) == DecodePhase(before, latches)
    {
      hide ApplyTrap, Decode, DecodeStalls;
      front, next, flushed, fetchStalled, decodeStalled := nextFrontEnd, nextLatches, flush, fetchStall, decodeStall;
      if !flushed && !memoryWait && !barrier {
        if latches.ifId.Some? {
          var payload := latches.ifId.value;
          var decoded := Decode(payload.raw, payload.pc);
          if decoded.None? {
            EnterTrap(ExceptionTrap(IllegalInstruction(payload.raw)), payload.pc, AtDecode);
            front, flushed := hart.pc, true;
          } else if DecodeStalls(latches, decoded.value) {
            decodeStalled, next := true, next.(ifId := Some(payload));
          } else {
            next := next.(idEx := Some(IdEx(decoded.value, ReadReg(hart.regs, Source(decoded.value.rs1)),
                                            ReadReg(hart.regs, Source(decoded.value.rs2)),
                                            payload.predicted, payload.taken)));
          }
        }
      } else if !flushed && !memoryWait && barrier {
        fetchStalled, decodeStalled := true, latches.ifId.Some?;
        next := next.(ifId := latches.ifId, idEx := latches.idEx);
      }
    }

    /** IF, and the clearing of flushed latches. */
    method FetchNext(ghost before: Work, nextFrontEnd: Word, barrier: bool, nextLatches: Latches, flush: bool,
                     memoryWait: bool, fetchStalled: bool, decodeStalled: bool)
      returns (front: Word, next: Latches)
      requires before == Seen(nextFrontEnd, barrier, nextLatches, flush, memoryWait, fetchStalled, decodeStalled)
      modifies this`hart, this`walker, this`bus, this`lastTrap, this`trapStage
      ensures PipeCycle(State().(frontEnd := front, barrier := barrier, latches := next), lastCommit, lastTrap, trapStage)
           == Finished(FetchPhase(before))
    {
      hide ApplyTrap, FetchStage;
      front, next := nextFrontEnd, nextLatches;
      if flush {
        next := next.(ifId := None, idEx := None);
      } else if !memoryWait && !decodeStalled && !fetchStalled && !barrier {
        var f := FetchStage(walker, bus, hart.csrs, hart.privilege, front, predictor);
        walker, bus := f.walker, f.bus;
        match f.event {
          case FetchAdvance(payload) => next, front := next.(ifId := Some(payload)), payload.predicted;
          case FetchStall =>
          case FetchTrap(trap) =>
            EnterTrap(trap, front, AtFetch);
            front := hart.pc;
        }
      }
    }

    method StepCycle(lines: set<Interrupt>, busBusy: bool)
      requires WellLatched(latches)
      modifies this
      ensures PipeCycle(State(), lastCommit, lastTrap, trapStage) == NextPipe(old(State()), lines, busBusy)
    {
      hide AtBoundaryWork, MemoryPhase, ExecutePhase, DecodePhase, FetchPhase, PendingInterrupt, ApplyTrap, SyncInterrupts;
      hart := hart.(csrs := SyncInterrupts(hart.csrs, lines));
      ghost var synced := State();
      lastCommit, lastTrap, trapStage := None, None, AtBoundary;
      if hart.halted {
        if !busBusy {
          var due := PendingInterrupt(hart.csrs, hart.privilege);
          if due.Some? {
            EnterTrap(InterruptTrap(due.value), hart.pc, AtBoundary);
            frontEndPc, latches := hart.pc, EMPTY_LATCHES;
          }
        }
        return;
      }
      var front, barrier, flushed := Retire(busBusy);
      ghost var retired := AtBoundaryWork(synced, busBusy);
      var next, memoryWait, fetchStalled, decodeStalled;
      front, barrier, next, flushed, memoryWait, fetchStalled, decodeStalled := Execute(retired, front, barrier, flushed);
      ghost var executed := ExecutedWork(synced, busBusy);
      front, next, flushed, fetchStalled, decodeStalled :=
        DecodeNext(executed, front, barrier, next, flushed, memoryWait, fetchStalled, decodeStalled);
      ghost var decoded := DecodePhase(executed, latches);
      front, next := FetchNext(decoded, front, barrier, next, flushed, memoryWait, fetchStalled, decodeStalled);
      frontEndPc, translationBarrier, latches := front, barrier, next;
    }
  }
}
