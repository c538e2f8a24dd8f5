/** Whole runs of the pipeline: refinement of the reference core, precise interrupts and
    data faults, and progress. */
module PipelineRuns {
  import opened Wrappers
  import opened Isa
  import opened CsrState
  import opened CpuBus
  import opened Mmu
  import opened Exec
  import opened WalkerRuns
  import opened Reference
  import opened Pipeline
  import opened PipelineProof

  /** What the outside shows the core in one cycle. */
  datatype Tick = Tick(lines: set<Interrupt>, busBusy: bool)

  function Step(p: Pipe, t: Tick): PipeCycle
    requires WellLatched(p.latches)
  {
    NextPipe(p, t.lines, t.busBusy)
  }

  /* ---------- refinement ---------- */

  ghost predicate InScopeRun(p: Pipe, ticks: seq<Tick>)
    decreases |ticks|
  {
    ticks == [] || (WellLatched(p.latches) && InScope(p, ticks[0].lines, ticks[0].busBusy) &&
                    InScopeRun(Step(p, ticks[0]).pipe, ticks[1..]))
  }

  /** Every cycle of the run agrees with the reference core that follows it. */
  ghost predicate RunAgrees(p: Pipe, core: Core, ticks: seq<Tick>)
    decreases |ticks|
  {
    ticks == [] ||
      (WellLatched(p.latches) && WellPending(core) &&
       var c, f := Step(p, ticks[0]), Follow(core, ticks[0].lines, Step(p, ticks[0]));
       CycleAgrees(c, f) && CommitsAgree(p, core, ticks[0].lines, c) && RunAgrees(c.pipe, f.core, ticks[1..]))
  }

  lemma {:induction false} RunTracks(p: Pipe, core: Core, ticks: seq<Tick>)
    requires Tracks(p, core) && InScopeRun(p, ticks)
    ensures RunAgrees(p, core, ticks)
    decreases |ticks|
  {
    hide InScope, Tracks, NextPipe, Follow, CommitsAgree;
    if ticks != [] {
      PipelineTracksReference(p, core, ticks[0].lines, ticks[0].busBusy);
      ReadyCore(p, core);
      var c := Step(p, ticks[0]);
      RunTracks(c.pipe, Follow(core, ticks[0].lines, c).core, ticks[1..]);
    }
  }

  lemma ReadyCore(p: Pipe, core: Core)
    requires Tracks(p, core)
    ensures WellPending(core) && core.machine.hart == p.hart
  {
    hide WbTracks, TailTracks, BareMode;
  }

  lemma ResetTracks(vector: Word, bus: Bus, predictor: Predictor)
    ensures Tracks(ResetPipe(vector, bus, predictor), ResetCore(vector, ZeroWait(bus)))
  {
    var c := ResetHart(vector).csrs;
    assert c.supervisor.satp == 0;
  }

  /** From reset, with any program, memory, branch history, interrupts and bus answers
      within scope, every cycle of the pipeline agrees with the reference core. */
  lemma EveryRunRefines(vector: Word, bus: Bus, predictor: Predictor, ticks: seq<Tick>)
    requires InScopeRun(ResetPipe(vector, bus, predictor), ticks)
    ensures RunAgrees(ResetPipe(vector, bus, predictor), ResetCore(vector, ZeroWait(bus)), ticks)
  {
    ResetTracks(vector, bus, predictor);
    RunTracks(ResetPipe(vector, bus, predictor), ResetCore(vector, ZeroWait(bus)), ticks);
  }

  /* ---------- the commit sequence ---------- */

  /** A commit and the interrupt lines of its cycle. */
  datatype Retirement = Retirement(lines: set<Interrupt>, commit: Commit)

  function Retirements(p: Pipe, ticks: seq<Tick>): seq<Retirement>
    requires WellLatched(p.latches)
    decreases |ticks|
  {
    if ticks == [] then [] else
      var c := Step(p, ticks[0]);
      if WellLatched(c.pipe.latches) then
        (if c.commit.Some? then [Retirement(ticks[0].lines, c.commit.value)] else []) + Retirements(c.pipe, ticks[1..])
      else []
  }

  ghost predicate TrapFree(p: Pipe, ticks: seq<Tick>)
    decreases |ticks|
  {
    ticks == [] || (WellLatched(p.latches) && InScope(p, ticks[0].lines, ticks[0].busBusy) &&
                    Step(p, ticks[0]).trap.None? && TrapFree(Step(p, ticks[0]).pipe, ticks[1..]))
  }

  /** These commits are those of the reference core's next instructions, in order, each with
      the lines as they were at its commit. */
  predicate Sequential(core: Core, rs: seq<Retirement>)
    decreases |rs|
  {
    rs == [] ||
      (WellPending(core) &&
       var f, r := Begin(core, rs[0].lines, true), NextCycle(core, rs[0].lines, true);
       f.Issue? && r.retired == 1 && CommitAgrees(rs[0].commit, f.decoded, core.machine.hart, r.core.machine.hart) &&
       Sequential(r.core, rs[1..]))
  }

  lemma {:induction false} CommitsTrack(p: Pipe, core: Core, ticks: seq<Tick>)
    requires Tracks(p, core) && WellLatched(p.latches) && TrapFree(p, ticks)
    ensures Sequential(core, Retirements(p, ticks))
    decreases |ticks|
  {
    hide InScope, Tracks, NextPipe, NextCycle, Begin, CommitAgrees, SyncInterrupts;
    if ticks != [] {
      var lines := ticks[0].lines;
      PipelineTracksReference(p, core, lines, ticks[0].busBusy);
      ReadyCore(p, core);
      var c := Step(p, ticks[0]);
      var next := Follow(core, lines, c).core;
      CommitsTrack(c.pipe, next, ticks[1..]);
      var rest := Retirements(c.pipe, ticks[1..]);
      if c.commit.Some? {
        var first := Retirement(lines, c.commit.value);
        assert Retirements(p, ticks) == [first] + rest;
        assert ([first] + rest)[1..] == rest;
      } else {
        SequentialFromSynced(core, lines, rest);
        assert [] + rest == rest;
      }
    }
  }

  lemma SequentialFromSynced(core: Core, lines: set<Interrupt>, rs: seq<Retirement>)
    requires WellPending(core) && Sequential(Synced(core, lines), rs)
    ensures Sequential(core, rs)
  {
    if rs != [] {
      SyncOverwrites(core.machine.hart.csrs, lines, rs[0].lines);
      hide Run, Fetch, SyncInterrupts, PendingInterrupt;
      assert Synced(Synced(core, lines), rs[0].lines) == Synced(core, rs[0].lines);
    }
  }

  /** Trap-free runs from reset commit exactly the reference core's instruction sequence,
      however the interrupt lines and the bus change from cycle to cycle. */
  lemma CommitSequence(vector: Word, bus: Bus, predictor: Predictor, ticks: seq<Tick>)
    requires TrapFree(ResetPipe(vector, bus, predictor), ticks)
    ensures Sequential(ResetCore(vector, ZeroWait(bus)), Retirements(ResetPipe(vector, bus, predictor), ticks))
  {
    ResetTracks(vector, bus, predictor);
    CommitsTrack(ResetPipe(vector, bus, predictor), ResetCore(vector, ZeroWait(bus)), ticks);
  }

  /* ---------- precise interrupts and data faults ---------- */

  /** The program counter of the oldest instruction not yet written back. */
  function OldestPc(l: Latches, frontEnd: Word): Word {
    if l.memWb.Some? then l.memWb.value.d.pc
    else if l.exMem.Some? then l.exMem.value.d.pc
    else if l.idEx.Some? then l.idEx.value.d.pc
    else if l.ifId.Some? then l.ifId.value.pc
    else frontEnd
  }

  lemma PcIsOldest(p: Pipe, core: Core)
    requires Tracks(p, core)
    ensures p.hart.pc == OldestPc(p.latches, p.frontEnd)
    ensures Committed(p.hart, p.latches.memWb).pc == OldestPc(p.latches.(memWb := None), p.frontEnd)
  {
    hide InstrAt, FetchedAt, DataAccess, Computed, BareMode, RawHazard, WriteReg;
  }

  /** An interrupt or a data fault records the pc of the oldest instruction not yet
      written back, changes no memory and leaves nothing in flight. */
  lemma TrapsArePrecise(p: Pipe, core: Core, lines: set<Interrupt>, busBusy: bool)
    requires Tracks(p, core) && WellLatched(p.latches) && InScope(p, lines, busBusy)
    requires NextPipe(p, lines, busBusy).trap.Some?
    ensures var c := NextPipe(p, lines, busBusy);
            var before := Committed(SyncedPipe(p, lines).hart, p.latches.memWb);
            c.pipe.latches == EMPTY_LATCHES && c.pipe.bus.mem == p.bus.mem && c.pipe.frontEnd == c.pipe.hart.pc &&
            before.pc == OldestPc(p.latches.(memWb := None), p.frontEnd) &&
            c.pipe.hart == ApplyTrap(before, c.trap.value, before.pc)
  {
    var s, z := SyncedPipe(p, lines), Synced(core, lines);
    SyncTracks(p, core, lines);
    PcIsOldest(s, z);
    PreciseShape(s, z, lines, busBusy);
  }

  lemma PreciseShape(p: Pipe, core: Core, lines: set<Interrupt>, busBusy: bool)
    requires Tracks(p, core) && WellLatched(p.latches) && Synced(core, lines) == core
    requires var c := RunningCycle(p, busBusy); c.trap.Some? && (c.stage.AtBoundary? || c.stage.AtMemory?)
    ensures var c := RunningCycle(p, busBusy);
            var before := Committed(p.hart, p.latches.memWb);
            c.pipe.latches == EMPTY_LATCHES && c.pipe.bus.mem == p.bus.mem && c.pipe.frontEnd == c.pipe.hart.pc &&
            c.pipe.hart == ApplyTrap(before, c.trap.value, before.pc)
  {
    hide SyncInterrupts, BareMode, NextCycle, DataAccess, ExecutePhase, DecodePhase, FetchPhase,
         PendingInterrupt, TailTracks, WbTracks, Committed, Begin, EnterTrap, MemoryStage, RetirePhase;
    RetireTracks(p, core, lines);
    var w := RetirePhase(Start(p), p.latches.memWb);
    var r := Retire(core, lines, p.latches.memWb.Some?);
    var i := InterruptPhase(w, busBusy);
    if i != w {
      FlushedShape(MemoryPhase(i, p.latches), p.latches);
    } else {
      if p.latches.exMem.Some? {
        MemoryTracks(w, p.latches, r.core, lines);
      }
      var m := MemoryPhase(w, p.latches);
      if m.flushed {
        FlushedShape(m, p.latches);
      } else {
        LateTrapsOnly(m, p.latches);
        LateTrapsOnly(ExecutePhase(m, p.latches), p.latches);
        LateTrapsOnly(DecodePhase(ExecutePhase(m, p.latches), p.latches), p.latches);
      }
    }
  }

  /** Once flushed, the later stages only clear the latches in front of EX. */
  lemma FlushedShape(w: Work, l: Latches)
    requires w.flushed && WellLatched(l)
    ensures FetchPhase(DecodePhase(ExecutePhase(w, l), l)) == w.(next := w.next.(ifId := None, idEx := None))
  {
  }

  /* ---------- progress ---------- */

  /** How many cycles at most until a commit. */
  function Distance(l: Latches): nat {
    if l.memWb.Some? then 1 else if l.exMem.Some? then 2 else if l.idEx.Some? then 3 else if l.ifId.Some? then 4 else 5
  }

  lemma TrapStays(w: Work, l: Latches)
    requires WellLatched(l)
    ensures w.trap.Some? ==> ExecutePhase(w, l).trap.Some? && DecodePhase(w, l).trap.Some? && FetchPhase(w).trap.Some?
  {
    hide Executing, Decode, EnterTrap, FetchStage, Train, DecodeStalls, TranslationBarrier;
  }

  /** The later stages leave what the earlier ones have passed on. */
  lemma ExecuteKeeps(w: Work, l: Latches)
    requires WellLatched(l)
    ensures var e := ExecutePhase(w, l);
            e.commit == w.commit && e.next.memWb == w.next.memWb && e.bus == w.bus && e.walker == w.walker && (e.trap.None? ==> e.hart == w.hart)
  {
    hide Executing, EnterTrap, Train, TranslationBarrier;
  }

  lemma DecodeKeeps(w: Work, l: Latches)
    ensures var d := DecodePhase(w, l);
            d.commit == w.commit && d.next.memWb == w.next.memWb && d.next.exMem == w.next.exMem && d.bus == w.bus && d.walker == w.walker &&
            (d.trap.None? ==> d.hart == w.hart)
  {
    hide Decode, EnterTrap, DecodeStalls;
  }

  lemma LatchesKept(w: Work)
    ensures var f := FetchPhase(w);
            f.commit == w.commit && f.next.memWb == w.next.memWb && f.next.exMem == w.next.exMem
  {
    hide EnterTrap, FetchStage;
  }

  lemma ExecuteMoves(w: Work, l: Latches)
    requires WellLatched(l) && l.idEx.Some? && !w.flushed && !w.memoryWait && !w.barrier
    ensures ExecutePhase(w, l).trap.Some? || ExecutePhase(w, l).next.exMem.Some?
  {
    hide Executing, EnterTrap, Train, TranslationBarrier;
  }

  lemma DecodeMoves(w: Work, l: Latches)
    requires l == EMPTY_LATCHES.(ifId := l.ifId) && l.ifId.Some? && !w.flushed && !w.memoryWait && !w.barrier
    ensures var d := DecodePhase(w, l);
            d.trap.Some? || (d.next.idEx.Some? && !d.flushed)
  {
    hide Decode, EnterTrap;
  }

  lemma FetchMoves(w: Work)
    requires !w.flushed && w.walker.active.None? && BareMode(w.hart.csrs) && w.bus.busy == NEVER
    ensures var f := FetchPhase(w);
            f.bus.busy == NEVER && f.next.idEx == w.next.idEx &&
            (!w.memoryWait && !w.barrier && !w.decodeStalled && !w.fetchStalled ==> f.trap.Some? || f.next.ifId.Some?)
  {
    hide EnterTrap, BareMode;
    BareFetchStage(w.walker, w.bus, w.hart.csrs, w.hart.privilege, w.frontEnd, w.predictor);
    hide FetchStage;
  }

  lemma FetchKeepsBus(w: Work)
    requires w.walker.active.None? && BareMode(w.hart.csrs)
    ensures FetchPhase(w).bus.busy == w.bus.busy
  {
    hide EnterTrap, BareMode;
    BareFetchStage(w.walker, w.bus, w.hart.csrs, w.hart.privilege, w.frontEnd, w.predictor);
    hide FetchStage;
  }

  lemma MemoryMoves(w: Work, l: Latches, core: Core, lines: set<Interrupt>)
    requires PipelineProof.AtBoundary(w, l, core) && Synced(core, lines) == core && w.bus.busy == NEVER
    requires MemoryPhase(w, l).trap.None?
    ensures var m := MemoryPhase(w, l);
            m.commit == w.commit && m.bus.busy == NEVER && m.walker == w.walker && m.hart == w.hart && !m.flushed && !m.memoryWait && !m.barrier &&
            (l.exMem.Some? ==> m.next.memWb.Some?) && (l.exMem.None? ==> m == w)
  {
    hide SyncInterrupts, BareMode, MemoryStage, DataAccess, TailTracks, EnterTrap;
    if l.exMem.Some? {
      MemoryTracks(w, l, core, lines);
      DataAccessQuiet(w.walker, w.bus, core.machine.bus, l.exMem.value);
    }
  }

  lemma DistanceDrops(p: Pipe, core: Core, lines: set<Interrupt>, busBusy: bool)
    requires Tracks(p, core) && WellLatched(p.latches) && p.bus.busy == NEVER
    requires NextPipe(p, lines, busBusy).trap.None?
    ensures var c := NextPipe(p, lines, busBusy);
            c.pipe.bus.busy == NEVER && (c.commit.None? ==> Distance(c.pipe.latches) < Distance(p.latches))
  {
    hide SyncInterrupts, BareMode, NextCycle, DataAccess, ExecutePhase, DecodePhase, FetchPhase, MemoryPhase,
         InterruptPhase, TailTracks, WbTracks, Committed, Begin, RetirePhase;
    SyncTracks(p, core, lines);
    var s, z, l := SyncedPipe(p, lines), Synced(core, lines), p.latches;
    RetireTracks(s, z, lines);
    var w := RetirePhase(Start(s), l.memWb);
    var r := Retire(z, lines, l.memWb.Some?);
    InterruptPhaseShape(w, busBusy);
    var i := InterruptPhase(w, busBusy);
    var m := MemoryPhase(i, l);
    var e := ExecutePhase(m, l);
    var d := DecodePhase(e, l);
    TrapStays(d, l);
    TrapStays(e, l);
    TrapStays(m, l);
    MemoryKeepsTrap(i, l);
    MemoryMoves(w, l, r.core, lines);
    ExecuteKeeps(m, l);
    DecodeKeeps(e, l);
    LatchesKept(d);
    FetchKeepsBus(d);
    if l.exMem.None? && l.memWb.None? {
      if l.idEx.Some? {
        ExecuteMoves(m, l);
      } else {
        assert e == m == w by { NothingToExecute(m, l); }
        if l.ifId.Some? {
          DecodeMoves(e, l);
        } else {
          assert d == w by { NothingToDecode(e, l); }
        }
        FetchMoves(d);
      }
    }
  }

  lemma MemoryKeepsTrap(w: Work, l: Latches)
    ensures w.trap.Some? ==> MemoryPhase(w, l).trap.Some?
  {
    hide MemoryStage, EnterTrap;
  }

  lemma NothingToExecute(w: Work, l: Latches)
    requires l.idEx.None?
    ensures ExecutePhase(w, l) == w
  {
  }

  lemma NothingToDecode(w: Work, l: Latches)
    requires l.ifId.None? && !w.barrier
    ensures DecodePhase(w, l) == w
  {
  }

  ghost predicate Commitless(p: Pipe, ticks: seq<Tick>)
    decreases |ticks|
  {
    ticks == [] || (WellLatched(p.latches) && Step(p, ticks[0]).commit.None? && Commitless(Step(p, ticks[0]).pipe, ticks[1..]))
  }

  lemma {:induction false} CommitlessIsShort(p: Pipe, core: Core, ticks: seq<Tick>)
    requires Tracks(p, core) && WellLatched(p.latches) && p.bus.busy == NEVER
    requires TrapFree(p, ticks) && Commitless(p, ticks)
    ensures |ticks| < Distance(p.latches)
    decreases |ticks|
  {
    hide InScope, Tracks, NextPipe, NextCycle, CommitAgrees, SyncInterrupts;
    if ticks != [] {
      PipelineTracksReference(p, core, ticks[0].lines, ticks[0].busBusy);
      DistanceDrops(p, core, ticks[0].lines, ticks[0].busBusy);
      ReadyCore(p, core);
      var c := Step(p, ticks[0]);
      CommitlessIsShort(c.pipe, Follow(core, ticks[0].lines, c).core, ticks[1..]);
    }
  }

  /** On a bus that never waits, any five consecutive trap-free cycles commit. */
  lemma FiveCyclesCommit(p: Pipe, core: Core, ticks: seq<Tick>)
    requires Tracks(p, core) && WellLatched(p.latches) && p.bus.busy == NEVER
    requires TrapFree(p, ticks) && |ticks| == 5
    ensures !Commitless(p, ticks)
  {
    if Commitless(p, ticks) {
      CommitlessIsShort(p, core, ticks);
    }
  }
}
