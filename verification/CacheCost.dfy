/** What a miss costs: over memory of one fixed latency, polled once per tick, exactly one
    Busy answer per word and cycle of latency, and twice that when the victim is dirty. */
module CacheCost {
  import opened Wrappers
  import opened BusFabric
  import opened FabricProof
  import opened CachePort
  import opened Cache
  import opened CacheProof

  ghost predicate Fixed(f: Fabric, latency: nat) {
    forall region, addr, kind :: f.latency(region, addr, kind) == latency
  }

  lemma {:induction false} TimesPositive(n: nat, latency: nat)
    requires n > 0
    ensures Times(n, latency) > 0 <==> latency > 0
  {
    if n > 1 { TimesPositive(n - 1, latency); }
  }

  /** The ticks a burst still needs. */
  function TicksLeft(b: ActiveBurst, latency: nat): nat
    requires b.beat <= b.request.Beats()
  {
    match b.phase
    case Accepted => Times(b.request.Beats() - b.beat, latency)
    case InFlight(cycles) =>
      cycles + (if b.beat < b.request.Beats() then Times(b.request.Beats() - b.beat - 1, latency) else 0)
    case _ => 0
  }

  function Own(f: Fabric, mine: Mine): ActiveBurst
    requires !mine.NoBurst? && BurstIndex(f, mine.id).Some?
  {
    f.bursts[BurstIndex(f, mine.id).value]
  }

  lemma OwnIsOk(f: Fabric, mine: Mine)
    requires Serves(f, mine) && !mine.NoBurst?
    ensures FabricOk(f) && BurstIndex(f, mine.id).Some? && BurstOk(f, Own(f, mine)) && !Own(f, mine).phase.Failed?
    ensures Own(f, mine).request == mine.Request()
  {
  }

  /** What advancing a burst does to its phase, if it does not fail. */
  predicate SteppedTo(b: ActiveBurst, a: ActiveBurst, latency: nat) {
    a.request == b.request && a.beat <= a.request.Beats() &&
    (a.phase.Failed? ||
     match b.phase
     case Accepted => if latency > 0 then a == b.(phase := InFlight(latency)) else BeatDone(b, a)
     case InFlight(cycles) => if cycles > 1 then a == b.(phase := InFlight(cycles - 1)) else BeatDone(b, a)
     case _ => a == b)
  }

  predicate BeatDone(b: ActiveBurst, a: ActiveBurst) {
    a.beat == b.beat + 1 && a.phase == if a.beat == a.request.Beats() then Ready else Accepted
  }

  lemma AdvanceSteps(f: Fabric, b: ActiveBurst, latency: nat)
    requires BurstOk(f, b) && Fixed(f, latency)
    ensures SteppedTo(b, AdvanceOne(f, b).burst, latency)
  {
    hide LoadWord, StoreWord;
  }

  lemma SteppedTicks(b: ActiveBurst, a: ActiveBurst, latency: nat)
    requires SteppedTo(b, a, latency) && !a.phase.Failed? && b.beat < b.request.Beats()
    requires b.phase.InFlight? && b.phase.cycles > 0
    ensures TicksLeft(a, latency) == TicksLeft(b, latency) - 1
  {
  }

  /* ---------- one poll ---------- */

  /** Advancing the bank's accepted burst takes no time: it starts to wait, or without
      latency completes a beat. */
  lemma AcceptedAdvances(f: Fabric, mine: Mine, latency: nat)
    requires !mine.NoBurst? && Serves(f, mine) && Fixed(f, latency)
    requires FabricOk(f) && BurstIndex(f, mine.id).Some? && Own(f, mine).phase.Accepted?
    ensures var g := AdvanceBurst(f, mine.id);
            Serves(g, mine) && BurstIndex(g, mine.id).Some? && BurstOk(f, Own(f, mine)) && BurstOk(g, Own(g, mine)) &&
            g.latency == f.latency && TicksLeft(Own(g, mine), latency) == TicksLeft(Own(f, mine), latency) &&
            (Own(g, mine).phase.InFlight? <==> latency > 0) && !Own(g, mine).phase.Failed? &&
            (TicksLeft(Own(f, mine), latency) == 0 <==> latency == 0)
  {
    OwnIsOk(f, mine);
    var b, i, g := Own(f, mine), BurstIndex(f, mine.id).value, AdvanceBurst(f, mine.id);
    AdvanceServes(f, i, mine);
    AdvanceDrives(f, mine.id);
    AdvanceSteps(f, b, latency);
    OwnIsOk(g, mine);
    TimesPositive(b.request.Beats() - b.beat, latency);
    assert Own(g, mine) == AdvanceOne(f, b).burst;
    if latency == 0 && b.beat + 1 < b.request.Beats() { TimesPositive(b.request.Beats() - b.beat - 1, latency); }
    hide Serves, AdvanceOne, FabricOk;
  }

  lemma {:induction false} DriveTakesNoTime(f: Fabric, mine: Mine, latency: nat)
    requires !mine.NoBurst? && Serves(f, mine) && Fixed(f, latency)
    ensures FabricOk(f) && BurstIndex(f, mine.id).Some?
    ensures var d := DriveFrom(f, mine.id);
            BurstOk(f, Own(f, mine)) && d.fabric.latency == f.latency &&
            (d.outcome.Finished? <==> TicksLeft(Own(f, mine), latency) == 0) &&
            (d.outcome.Blocked? ==>
               Serves(d.fabric, mine) && BurstIndex(d.fabric, mine.id).Some? && BurstOk(d.fabric, Own(d.fabric, mine)) &&
               Own(d.fabric, mine).phase.InFlight? &&
               TicksLeft(Own(d.fabric, mine), latency) == TicksLeft(Own(f, mine), latency))
    decreases DriveRank(f, mine.id).0, DriveRank(f, mine.id).1
  {
    OwnIsOk(f, mine);
    TakeKeepsLatency(f, mine.id);
    hide Serves, AdvanceBurst, TakeBurst, AdvanceOne, FabricOk, BurstOk, TicksLeft;
    ReadyTicks(f, mine, latency);
    if Own(f, mine).phase.Accepted? {
      AcceptedAdvances(f, mine, latency);
      AdvanceDrives(f, mine.id);
      var g := AdvanceBurst(f, mine.id);
      if latency == 0 { DriveTakesNoTime(g, mine, latency); }
    } else if Own(f, mine).phase.Ready? {
      TakeServes(f, mine);
    }
  }

  lemma ReadyTicks(f: Fabric, mine: Mine, latency: nat)
    requires !mine.NoBurst? && Serves(f, mine)
    ensures FabricOk(f) && BurstIndex(f, mine.id).Some? && BurstOk(f, Own(f, mine))
    ensures Own(f, mine).phase.Ready? ==> TicksLeft(Own(f, mine), latency) == 0
    ensures Own(f, mine).phase.InFlight? ==> TicksLeft(Own(f, mine), latency) > 0
  {
    OwnIsOk(f, mine);
  }

  lemma TakeKeepsLatency(f: Fabric, id: nat)
    requires FabricOk(f)
    ensures TakeBurst(f, id).fabric.latency == f.latency
  {
  }

  /* ---------- one tick ---------- */

  lemma {:induction false} TickSteps(f: Fabric, i: nat, k: nat, latency: nat)
    requires FabricOk(f) && i <= k < |f.bursts| && Fixed(f, latency)
    ensures SteppedTo(f.bursts[k], AdvanceBursts(f, i).bursts[k], latency)
    decreases |f.bursts| - i
  {
    var g := AdvanceBurstAt(f, i);
    if i == k {
      AdvanceSteps(f, f.bursts[k], latency);
      assert AdvanceBursts(g, i + 1).bursts[k] == g.bursts[k];
    } else {
      TickSteps(g, i + 1, k, latency);
    }
  }

  /** A tick takes one off what a waiting burst still needs. */
  lemma TickTakesOne(f: Fabric, mine: Mine, latency: nat)
    requires !mine.NoBurst? && Serves(f, mine) && Fixed(f, latency)
    requires FabricOk(f) && BurstIndex(f, mine.id).Some? && Own(f, mine).phase.InFlight?
    ensures var g := Tick(f);
            Serves(g, mine) && BurstIndex(g, mine.id).Some? && BurstOk(f, Own(f, mine)) && BurstOk(g, Own(g, mine)) &&
            g.latency == f.latency && TicksLeft(Own(g, mine), latency) == TicksLeft(Own(f, mine), latency) - 1
  {
    OwnIsOk(f, mine);
    TickServes(f, mine);
    var g, k, mid := Tick(f), BurstIndex(f, mine.id).value, AdvanceAccesses(f, 0);
    OwnIsOk(g, mine);
    TickSteps(mid, 0, k, latency);
    TickKeepsIndex(f, mine.id);
    SteppedTicks(Own(f, mine), Own(g, mine), latency);
  }

  /* ---------- the bank ---------- */

  /** The ticks a burst needs, one not yet submitted included. */
  function BurstTicks(f: Fabric, burst: Option<nat>, words: nat, latency: nat): nat {
    if burst.None? then Times(words, latency)
    else
      var i := BurstIndex(f, burst.value);
      if i.Some? && f.bursts[i.value].beat <= f.bursts[i.value].request.Beats()
      then TicksLeft(f.bursts[i.value], latency) else 0
  }

  /** The burst has been submitted and its current beat is waiting. */
  predicate Underway(f: Fabric, burst: Option<nat>) {
    burst.Some? && BurstIndex(f, burst.value).Some? && f.bursts[BurstIndex(f, burst.value).value].phase.InFlight?
  }

  lemma SubmitTakesNoTime(f: Fabric, request: BurstRequest, latency: nat)
    requires Serves(f, NoBurst) && request.Beats() > 0 && LineMapped(f, request.base, request.Beats())
    requires request.WriteWords? ==> LineWritable(f, request.base)
    ensures FabricOk(f)
    ensures var s := SubmitBurst(f, request);
            s.id == Done(f.nextId) && s.fabric.latency == f.latency &&
            BurstTicks(s.fabric, Some(f.nextId), request.Beats(), latency) == Times(request.Beats(), latency)
  {
    ServesIsOk(f, NoBurst);
    SubmitServes(f, request);
    NoIndexYet(f);
    var g := SubmitBurst(f, request).fabric;
    NewIndex(f, g.bursts[|f.bursts|], g, f.nextId, 0);
    hide FindRegion, CrossingBeat;
  }

  lemma DriveCost(f: Fabric, burst: Option<nat>, request: BurstRequest, latency: nat)
    requires request.Beats() > 0 && LineMapped(f, request.base, request.Beats()) && Fixed(f, latency)
    requires request.WriteWords? ==> LineWritable(f, request.base)
    requires Serves(f, if burst.Some? then MineFor(request, burst.value) else NoBurst)
    ensures FabricOk(f) && (burst.Some? ==> BurstIndex(f, burst.value).Some?)
    ensures var d := DriveBurst(f, burst, request);
            DroveTo(f, request, d) && Fixed(d.fabric, latency) &&
            (d.outcome.Finished? <==> BurstTicks(f, burst, request.Beats(), latency) == 0) &&
            (d.outcome.Blocked? ==>
               BurstTicks(d.fabric, d.burst, request.Beats(), latency) == BurstTicks(f, burst, request.Beats(), latency) &&
               Underway(d.fabric, d.burst))
  {
    ServesIsOk(f, if burst.Some? then MineFor(request, burst.value) else NoBurst);
    DriveBurstServes(f, burst, request);
    hide Serves, FindRegion, DriveFrom, SubmitBurst, Holds, TicksLeft, FabricOk, Times;
    if burst.Some? {
      DriveTakesNoTime(f, MineFor(request, burst.value), latency);
      DriveServes(f, MineFor(request, burst.value));
      OwnIsOk(f, MineFor(request, burst.value));
    } else {
      SubmitTakesNoTime(f, request, latency);
      SubmitServes(f, request);
      var g := SubmitBurst(f, request).fabric;
      DriveTakesNoTime(g, MineFor(request, f.nextId), latency);
      DriveServes(g, MineFor(request, f.nextId));
      OwnIsOk(g, MineFor(request, f.nextId));
    }
  }

  /** The ticks until a pending operation is done. */
  function Cost(b: Bank, f: Fabric, latency: nat): nat
    requires b.pending.Some?
  {
    var p, words := b.pending.value, b.config.words;
    if p.writeBack.Some? then BurstTicks(f, p.writeBack.value.burst, words, latency) + Times(words, latency)
    else BurstTicks(f, p.refill.burst, words, latency)
  }

  predicate Waits(b: Bank, f: Fabric) {
    b.pending.Some? &&
    Underway(f, if b.pending.value.writeBack.Some? then b.pending.value.writeBack.value.burst else b.pending.value.refill.burst)
  }

  lemma RefillCost(b: Bank, f: Fabric, latency: nat)
    requires BankOk(b, f) && b.pending.Some? && b.pending.value.writeBack.None? && Fixed(f, latency)
    ensures BankShape(b) && FabricOk(f) && BurstsActive(b, f)
    ensures var a := ContinueRefill(b.(pending := None), f, b.pending.value.refill);
            Fixed(a.fabric, latency) && (a.reply.Got? <==> Cost(b, f, latency) == 0) &&
            (a.reply.Busy? ==> a.bank.pending.Some? && Cost(a.bank, a.fabric, latency) == Cost(b, f, latency) && Waits(a.bank, a.fabric))
  {
    OkGivesActive(b, f);
    var refill, c := b.pending.value.refill, b.config;
    EncodeRoundTrip(c, refill.set_, refill.tag);
    MappedLine(c, f, refill.base);
    DriveCost(f, refill.burst, ReadWords(refill.base, c.words, refill.kind), latency);
    hide DriveBurst, Serves, Mapped, LineBase, SetOf, TagOf, BaseFor, CachesLine, Holds, Install, LinesMatch, UniqueTags,
         Lookup, BurstTicks, Underway, FabricOk;
  }

  lemma ContinueCost(b: Bank, f: Fabric, latency: nat)
    requires BankOk(b, f) && b.pending.Some? && Fixed(f, latency)
    ensures FabricOk(f) && BurstsActive(b, f)
    ensures var a := ContinuePending(b, f);
            Fixed(a.fabric, latency) && (a.reply.Got? <==> Cost(b, f, latency) == 0) &&
            (a.reply.Busy? ==> a.bank.pending.Some? && Cost(a.bank, a.fabric, latency) == Cost(b, f, latency) && Waits(a.bank, a.fabric))
  {
    OkGivesActive(b, f);
    var p, c := b.pending.value, b.config;
    if p.writeBack.None? {
      RefillCost(b, f, latency);
    } else {
      var wb := p.writeBack.value;
      SavedRange(b);
      MappedLine(c, f, wb.base);
      OkIsSound(b, f);
      OkGoesBack(b, f);
      WriteBackDrives(b, f, true);
      DriveCost(f, wb.burst, WriteWords(wb.base, wb.words), latency);
      var d := DriveBurst(f, wb.burst, WriteWords(wb.base, wb.words));
      if d.outcome.Finished? {
        SavedIsDone(b, f, d.fabric, 0);
        MappedSame(c, f, d.fabric);
        OkIsSound(b.(pending := Some(PendingLine(None, p.refill))), d.fabric);
        RefillCost(b.(pending := Some(PendingLine(None, p.refill))), d.fabric, latency);
      }
    }
    hide BankOk, DriveBurst, Serves, Mapped, LineBase, CachesLine, Holds, LinesMatch, ContinueRefill, BurstTicks, Underway;
  }

  /** A waiting bank is one tick nearer after a tick. */
  lemma TickCost(b: Bank, f: Fabric, latency: nat)
    requires BankOk(b, f) && Waits(b, f) && Fixed(f, latency)
    ensures FabricOk(f) && Fixed(Tick(f), latency) && Cost(b, Tick(f), latency) == Cost(b, f, latency) - 1
  {
    OkGivesActive(b, f);
    TickTakesOne(f, MineOf(b), latency);
    hide Serves, Mapped, LinesMatch, UniqueTags, PendingMatches, Tick, TicksLeft, Times;
  }

  /* ---------- polling once per tick ---------- */

  /** The ticks until a load of this address completes. */
  function CostAt(b: Bank, f: Fabric, addr: nat, latency: nat): nat
    requires BankShape(b)
  {
    if b.pending.Some? then Cost(b, f, latency)
    else if Lookup(b, addr).Some? then 0
    else
      var victim := LineAt(b, SetOf(b.config, addr), SelectVictim(b, SetOf(b.config, addr)).way);
      Times(b.config.words, latency) +
      if b.config.writeBack && victim.valid && victim.dirty then Times(b.config.words, latency) else 0
  }

  lemma StartCost(b: Bank, f: Fabric, addr: nat, kind: AccessKind, latency: nat)
    requires BankShape(b) && b.pending.None? && Lookup(b, addr).None?
    ensures Cost(StartPending(b, addr, kind), f, latency) == CostAt(b, f, addr, latency)
  {
    StartPendingShape(b, addr, kind);
    SameCacheLines(b, addr, kind);
    hide StartPending, SelectVictim, Lookup, Times;
  }

  /** One poll takes no time: it completes exactly when nothing is left to wait for. */
  lemma PollCost(b: Bank, f: Fabric, addr: nat, kind: AccessKind, latency: nat)
    requires BankOk(b, f) && CachesLine(b.config, LineBase(b.config, addr)) && !Occupied(b, addr) && Fixed(f, latency)
    ensures FabricOk(f) && BurstsActive(b, f)
    ensures var a := LoadLine(b, f, addr, kind);
            !a.reply.Failure? && (a.reply.Got? <==> CostAt(b, f, addr, latency) == 0) && Fixed(a.fabric, latency) &&
            (a.reply.Busy? ==>
               a.bank.pending.Some? && !Occupied(a.bank, addr) && Waits(a.bank, a.fabric) &&
               Cost(a.bank, a.fabric, latency) == CostAt(b, f, addr, latency))
  {
    OkGivesActive(b, f);
    ContinueKeeps(b, f, 0);
    EnsureKeeps(b, f, addr, kind, 0);
    if b.pending.Some? {
      ContinueCost(b, f, latency);
      PendingIsFound(b, f, addr);
    } else if Lookup(b, addr).None? {
      StartKeepsOk(b, f, addr, kind);
      StartCost(b, f, addr, kind, latency);
      ContinueKeeps(StartPending(b, addr, kind), f, 0);
      ContinueCost(StartPending(b, addr, kind), f, latency);
      StartPendingShape(b, addr, kind);
    }
    hide BankOk, ContinuePending, StartPending, Lookup, CachesLine, LineBase, Cost, Waits, Touch, View, SelectVictim;
  }

  lemma PendingIsFound(b: Bank, f: Fabric, addr: nat)
    requires BankOk(b, f) && b.pending.Some? && !Occupied(b, addr)
    ensures FabricOk(f) && BurstsActive(b, f)
    ensures var a := ContinuePending(b, f); a.reply.Got? ==> Lookup(a.bank, addr).Some?
  {
    OkGivesActive(b, f);
    var refill := b.pending.value.refill;
    EncodeRoundTrip(b.config, refill.set_, refill.tag);
    BaseDecodes(b.config, addr);
    var a := ContinuePending(b, f);
    if a.reply.Got? { InstalledIsFound(a.bank, refill, addr); }
  }

  /** Polled once per tick, the load is told Busy exactly `count` times and then completes. */
  ghost predicate BusyThenDone(b: Bank, f: Fabric, addr: nat, kind: AccessKind, count: nat)
    decreases count
  {
    BankShape(b) && FabricOk(f) && BurstsActive(b, f) &&
    var a := LoadLine(b, f, addr, kind);
    if count == 0 then a.reply.Got?
    else a.reply.Busy? && FabricOk(a.fabric) && BusyThenDone(a.bank, Tick(a.fabric), addr, kind, count - 1)
  }

  lemma {:induction false} PollingCost(b: Bank, f: Fabric, addr: nat, kind: AccessKind, latency: nat, count: nat)
    requires BankOk(b, f) && CachesLine(b.config, LineBase(b.config, addr)) && !Occupied(b, addr) && Fixed(f, latency)
    requires BankShape(b) && count == CostAt(b, f, addr, latency)
    ensures BusyThenDone(b, f, addr, kind, count)
    decreases count
  {
    hide BankOk, LoadLine, CachesLine, LineBase, Cost, Waits, Occupied, Tick, View, Lookup, SelectVictim;
    OkGivesActive(b, f);
    PollCost(b, f, addr, kind, latency);
    if count > 0 {
      var a := LoadLine(b, f, addr, kind);
      LoadKeeps(b, f, addr, kind, 0);
      OkGivesActive(a.bank, a.fabric);
      TickKeeps(a.bank, a.fabric, 0);
      TickCost(a.bank, a.fabric, latency);
      PollingCost(a.bank, Tick(a.fabric), addr, kind, latency, count - 1);
    }
  }

  /** The exact cost of a miss, for every line length and latency: words times latency,
      and twice that when a dirty victim goes back first. */
  lemma MissCost(b: Bank, f: Fabric, addr: nat, kind: AccessKind, latency: nat)
    requires BankOk(b, f) && CachesLine(b.config, LineBase(b.config, addr)) && Fixed(f, latency)
    requires b.pending.None? && Lookup(b, addr).None?
    ensures var victim := LineAt(b, SetOf(b.config, addr), SelectVictim(b, SetOf(b.config, addr)).way);
            var fill := b.config.words * latency;
            BusyThenDone(b, f, addr, kind, if b.config.writeBack && victim.valid && victim.dirty then 2 * fill else fill)
  {
    hide BankOk, LoadLine, CachesLine, LineBase, Lookup, SelectVictim, BusyThenDone, LineAt, SetOf, Times, Fixed;
    OkGivesActive(b, f);
    TimesIsProduct(b.config.words, latency);
    PollingCost(b, f, addr, kind, latency, CostAt(b, f, addr, latency));
  }
}
