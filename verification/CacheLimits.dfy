/** When the write-back of a victim is lost: exactly when the lower bus turns its burst away
    or the victim's device cannot be written. */
module CacheLimits {
  import opened Wrappers
  import opened BusFabric
  import opened CachePort
  import opened Cache
  import opened CacheProof

  /* ---------- refusals by the memory map ---------- */

  predicate HoldsBeats(region: Region, request: BurstRequest) {
    forall k | 0 <= k < request.Beats() :: region.Contains(request.BeatAddr(k))
  }

  lemma {:induction false} CrossingMeans(f: Fabric, request: BurstRequest, region: nat, k: nat)
    requires Disjoint(f.regions) && region < |f.regions| && k <= request.Beats()
    ensures CrossingBeat(f, request, region, k).None? <==>
      forall j | k <= j < request.Beats() :: f.regions[region].Contains(request.BeatAddr(j))
    decreases request.Beats() - k
  {
    if k < request.Beats() {
      if f.regions[region].Contains(request.BeatAddr(k)) { RoutedToTheOnlyDevice(f.regions, request.BeatAddr(k), region); }
      CrossingMeans(f, request, region, k + 1);
    }
  }

  /** The memory map refuses a burst if and only if no one device holds all its beats, and
      is then unchanged. */
  lemma RefusedExactly(f: Fabric, request: BurstRequest)
    requires FabricOk(f) && request.Beats() > 0
    ensures SubmitBurst(f, request).id.Fault? <==>
            forall r | 0 <= r < |f.regions| :: !HoldsBeats(f.regions[r], request)
    ensures SubmitBurst(f, request).id.Fault? ==> SubmitBurst(f, request).fabric == f
  {
    var home := FindRegion(f.regions, request.BeatAddr(0));
    forall r | 0 <= r < |f.regions| && HoldsBeats(f.regions[r], request) ensures SubmitBurst(f, request).id.Done? {
      assert f.regions[r].Contains(request.BeatAddr(0));
      RoutedToTheOnlyDevice(f.regions, request.BeatAddr(0), r);
      CrossingMeans(f, request, r, 1);
    }
    if home.Some? {
      CrossingMeans(f, request, home.value, 1);
      hide FindRegion, CrossingBeat;
      if SubmitBurst(f, request).id.Done? { assert HoldsBeats(f.regions[home.value], request); }
    }
  }

  /* ---------- a write burst to a device that cannot be written ---------- */

  /** The burst has been accepted and its first beat will fail, or has. */
  ghost predicate Doomed(f: Fabric, mine: Mine) {
    FabricOk(f) && Backed(f) && mine.Writing? && OnlyWriter(f, mine) && BurstIndex(f, mine.id).Some? &&
    DoomedBurst(f, f.bursts[BurstIndex(f, mine.id).value], mine)
  }

  predicate DoomedBurst(f: Fabric, x: ActiveBurst, mine: Mine)
    requires mine.Writing? && BurstOk(f, x)
  {
    x.request == mine.Request() && x.beat == 0 && |mine.words| > 0 && !f.regions[x.region].writable
  }

  lemma DoomedAdvance(f: Fabric, x: ActiveBurst, mine: Mine)
    requires mine.Writing? && BurstOk(f, x) && DoomedBurst(f, x, mine)
    ensures var a := AdvanceOne(f, x); a.bytes == f.bytes && DoomedBurst(f, a.burst, mine)
    ensures Executes(f, x) ==> AdvanceOne(f, x).burst.phase.Failed?
  {
  }

  lemma DoomedAdvanceAt(f: Fabric, i: nat, mine: Mine)
    requires Doomed(f, mine) && i < |f.bursts|
    ensures var g := AdvanceBurstAt(f, i); Doomed(g, mine) && g.bytes == f.bytes && g.regions == f.regions
  {
    hide AdvanceOne, BurstIndex;
    var g, own := AdvanceBurstAt(f, i), BurstIndex(f, mine.id).value;
    SameIndices(f, g, mine.id);
    if i == own { DoomedAdvance(f, f.bursts[i], mine); } else { OtherAdvance(f, f.bursts[i]); }
  }

  lemma {:induction false} DoomedBursts(f: Fabric, i: nat, mine: Mine)
    requires Doomed(f, mine) && i <= |f.bursts|
    ensures var g := AdvanceBursts(f, i); Doomed(g, mine) && g.bytes == f.bytes && g.regions == f.regions
    decreases |f.bursts| - i
  {
    hide Doomed, AdvanceBurstAt, FabricOk;
    if i < |f.bursts| {
      DoomedIsOk(f, mine);
      DoomedAdvanceAt(f, i, mine);
      SameBurstCount(f, i);
      DoomedBursts(AdvanceBurstAt(f, i), i + 1, mine);
    }
  }

  lemma DoomedIsOk(f: Fabric, mine: Mine)
    requires Doomed(f, mine)
    ensures FabricOk(f) && mine.Writing? && BurstIndex(f, mine.id).Some?
  {
  }

  lemma DoomedAccess(f: Fabric, i: nat, mine: Mine)
    requires Doomed(f, mine) && i < |f.accesses|
    ensures var g := AdvanceAccessAt(f, i);
            Doomed(g, mine) && g.bytes == f.bytes && g.regions == f.regions && |g.accesses| == |f.accesses|
  {
    hide AdvanceAccess, BurstIndex;
    RegionsKnown(f, i);
    OtherAccess(f, f.accesses[i]);
    SameIndices(f, AdvanceAccessAt(f, i), mine.id);
  }

  lemma {:induction false} DoomedAccesses(f: Fabric, i: nat, mine: Mine)
    requires Doomed(f, mine) && i <= |f.accesses|
    ensures var g := AdvanceAccesses(f, i); Doomed(g, mine) && g.bytes == f.bytes
    decreases |f.accesses| - i
  {
    hide Doomed, AdvanceAccessAt, FabricOk;
    if i < |f.accesses| {
      DoomedIsOk(f, mine);
      DoomedAccess(f, i, mine);
      DoomedAccesses(AdvanceAccessAt(f, i), i + 1, mine);
    }
  }

  lemma DoomedTick(f: Fabric, mine: Mine)
    requires Doomed(f, mine)
    ensures FabricOk(f) && Doomed(Tick(f), mine) && Tick(f).bytes == f.bytes && Tick(f).regions == f.regions
  {
    hide Doomed, FabricOk;
    DoomedIsOk(f, mine);
    DoomedAccesses(f, 0, mine);
    DoomedBursts(AdvanceAccesses(f, 0), 0, mine);
  }

  /** Driving it either waits or fails, and writes nothing. */
  ghost predicate DrivesToNothing(f: Fabric, mine: Mine, d: Driven)
    requires mine.Writing?
  {
    d.fabric.bytes == f.bytes && d.fabric.regions == f.regions &&
    match d.outcome
    case Blocked => d.burst == Some(mine.id) && Doomed(d.fabric, mine)
    case Broken(_) => d.burst.None? && Serves(d.fabric, NoBurst)
    case _ => false
  }

  lemma DoomedTaken(f: Fabric, mine: Mine)
    requires Doomed(f, mine) && f.bursts[BurstIndex(f, mine.id).value].phase.Failed?
    ensures var t := TakeBurst(f, mine.id);
            t.fabric.bytes == f.bytes && t.fabric.regions == f.regions && Serves(t.fabric, NoBurst) &&
            t.response.Some? && t.response.value.Fault?
  {
  }

  lemma {:induction false} DoomedDrives(f: Fabric, mine: Mine)
    requires Doomed(f, mine)
    ensures FabricOk(f) && mine.Writing? && BurstIndex(f, mine.id).Some?
    ensures DrivesToNothing(f, mine, DriveFrom(f, mine.id))
    ensures var x := f.bursts[BurstIndex(f, mine.id).value];
            x.phase.Accepted? ==> (DriveFrom(f, mine.id).outcome.Blocked? <==>
              f.latency(x.region, mine.base, StoreAccess) > 0)
    decreases DriveRank(f, mine.id).0, DriveRank(f, mine.id).1
  {
    DoomedIsOk(f, mine);
    var own := BurstIndex(f, mine.id).value;
    var x := f.bursts[own];
    if x.phase.Accepted? {
      AdvanceDrives(f, mine.id);
      DoomedAdvanceAt(f, own, mine);
      DoomedAdvance(f, x, mine);
      var g := AdvanceBurst(f, mine.id);
      hide Doomed, TakeBurst, FabricOk;
      if !g.bursts[own].phase.InFlight? { DoomedDrives(g, mine); }
    } else if x.phase.Failed? {
      DoomedTaken(f, mine);
    }
  }

  lemma DoomedSubmit(f: Fabric, request: BurstRequest)
    requires Serves(f, NoBurst) && request.WriteWords? && |request.words| > 0
    requires LineMapped(f, request.base, |request.words|) && !LineWritable(f, request.base)
    ensures var s := SubmitBurst(f, request);
            s.id == Done(f.nextId) && Doomed(s.fabric, MineFor(request, f.nextId)) && s.fabric.bytes == f.bytes &&
            s.fabric.regions == f.regions && s.fabric.latency == f.latency &&
            var x := s.fabric.bursts[BurstIndex(s.fabric, f.nextId).value];
            x.phase.Accepted? && Some(x.region) == FindRegion(f.regions, request.base)
  {
    hide BurstIndex, FindRegion;
    NothingCrosses(f, request, FindRegion(f.regions, request.base).value, 1);
    hide CrossingBeat;
    NoIndexYet(f);
    var g := SubmitBurst(f, request).fabric;
    NewIndex(f, g.bursts[|f.bursts|], g, f.nextId, 0);
  }

  /* ---------- one call ---------- */

  /** A dirty victim's words are saved and its burst has not been submitted. */
  predicate Unsent(b: Bank) { b.pending.Some? && b.pending.value.writeBack.Some? && b.pending.value.writeBack.value.burst.None? }

  predicate StillSaved(b: Bank) { b.pending.Some? && b.pending.value.writeBack.Some? }

  /** Memory already has the saved byte of this address of the victim's line. */
  predicate HeldAlready(b: Bank, f: Fabric, addr: nat)
    requires BankShape(b) && StillSaved(b) && LineBase(b.config, addr) == b.pending.value.writeBack.value.base
  {
    var wb := b.pending.value.writeBack.value;
    addr in f.bytes && f.bytes[addr] == ByteIn(wb.words, addr - wb.base)
  }

  /** What is lost when the operation is dropped over unchanged memory. */
  lemma DroppedView(b: Bank, f: Fabric, g: Fabric, addr: nat)
    requires BankShape(b) && PendingMatches(b) && StillSaved(b) && g.bytes == f.bytes
    ensures var r, base := b.(pending := None), b.pending.value.writeBack.value.base;
            BankShape(r) && (View(r, g, addr) == View(b, f, addr) <==> LineBase(b.config, addr) != base || HeldAlready(b, f, addr))
  {
    SameSets(b, b.(pending := None));
    if LineBase(b.config, addr) == b.pending.value.writeBack.value.base {
      SavedRange(b);
      LookupByLine(b, addr, b.pending.value.writeBack.value.base);
    }
    hide Lookup, SetOf, TagOf, LineNumber, ByteIn, CachesLine, BaseFor;
  }

  /** With the victim's device read-only, one call either waits with the words still saved
      or drops them, and memory stays as it is. */
  ghost predicate Futile(b: Bank, f: Fabric, a: Access<()>) {
    StillSaved(b) && a.fabric.bytes == f.bytes && a.fabric.regions == f.regions &&
    var p := b.pending.value;
    (exists id :: WaitsInVain(b, a.bank, a.fabric, id)) || (a.bank == b.(pending := None) && Serves(a.fabric, NoBurst))
  }

  ghost predicate WaitsInVain(b: Bank, r: Bank, g: Fabric, id: nat)
    requires StillSaved(b)
  {
    var p, wb := b.pending.value, b.pending.value.writeBack.value;
    r == b.(pending := Some(PendingLine(Some(wb.(burst := Some(id))), p.refill))) && Doomed(g, Writing(id, wb.base, wb.words))
  }

  /** The device of the victim makes a write to its line wait. */
  predicate MakesWait(f: Fabric, base: nat) {
    var r := FindRegion(f.regions, base);
    r.Some? && f.latency(r.value, base, StoreAccess) > 0
  }

  lemma FirstCallIsFutile(b: Bank, f: Fabric, room: Room)
    requires BankSound(b, f) && Unsent(b) && room.toWrite && !LineWritable(f, b.pending.value.writeBack.value.base)
    ensures BankShape(b) && FabricOk(f) && BurstsActive(b, f)
    ensures Futile(b, f, ContinuePending(b, f, room))
    ensures StillSaved(ContinuePending(b, f, room).bank) <==> MakesWait(f, b.pending.value.writeBack.value.base)
  {
    SoundGivesActive(b, f);
    SavedRange(b);
    var wb := b.pending.value.writeBack.value;
    var request := WriteWords(wb.base, wb.words);
    ReadableLine(b.config, f, wb.base);
    DoomedSubmit(f, request);
    var s := SubmitBurst(f, request);
    DoomedIsOk(s.fabric, MineFor(request, f.nextId));
    DoomedDrives(s.fabric, MineFor(request, f.nextId));
    hide Serves, Doomed, DriveFrom, SubmitBurst, FabricOk, ContinueRefill, FindRegion, Readable, LinesMatch, UniqueTags,
         PendingMatches, LineBase, CachesLine;
    var a := ContinuePending(b, f, room);
    if a.reply.Busy? { assert WaitsInVain(b, a.bank, a.fabric, f.nextId); }
  }

  /** For one call, from facts known before it: what can be read at an address stays as it
      was if and only if the address is not in the victim's line, or there is room for the
      write-back and the victim's device takes writes or makes this one wait, or memory
      already holds the byte. */
  lemma ContinueIsExact(b: Bank, f: Fabric, room: Room, addr: nat)
    requires BankSound(b, f) && Unsent(b)
    ensures BankShape(b) && FabricOk(f) && BurstsActive(b, f)
    ensures var a, base := ContinuePending(b, f, room), b.pending.value.writeBack.value.base;
            View(a.bank, a.fabric, addr) == View(b, f, addr) <==>
              LineBase(b.config, addr) != base || (room.toWrite && (LineWritable(f, base) || MakesWait(f, base))) ||
              HeldAlready(b, f, addr)
  {
    SoundGivesActive(b, f);
    SoundMatches(b, f);
    DroppedView(b, f, f, addr);
    var base := b.pending.value.writeBack.value.base;
    hide BankSound, View, Serves, DriveFrom, SubmitBurst, FabricOk, ContinueRefill, LineBase, MakesWait, LineWritable, HeldAlready;
    if room.toWrite {
      if LineWritable(f, base) {
        ContinueShows(b, f, room, addr);
      } else {
        FirstCallIsFutile(b, f, room);
        var a := ContinuePending(b, f, room);
        FutileView(b, f, a, addr);
      }
    }
  }

  lemma FutileView(b: Bank, f: Fabric, a: Access<()>, addr: nat)
    requires BankShape(b) && PendingMatches(b) && Futile(b, f, a)
    ensures BankShape(a.bank)
    ensures StillSaved(a.bank) ==> View(a.bank, a.fabric, addr) == View(b, f, addr)
    ensures !StillSaved(a.bank) ==> a.bank == b.(pending := None) && a.fabric.bytes == f.bytes
    ensures !StillSaved(a.bank) ==> (View(a.bank, a.fabric, addr) == View(b, f, addr) <==>
              LineBase(b.config, addr) != b.pending.value.writeBack.value.base || HeldAlready(b, f, addr))
  {
    DroppedView(b, f, a.fabric, addr);
    hide Serves, Doomed, Lookup, LineBase, SetOf, ByteIn, HeldAlready;
    if StillSaved(a.bank) { SameSets(b, a.bank); }
  }

  /* ---------- the whole operation ---------- */

  /** A retry of whoever waits for the bank, or a tick of the fabric. */
  datatype Turn = Retry(room: Room) | Clock

  datatype Stand = Stand(bank: Bank, fabric: Fabric)

  predicate StandShape(p: Stand) { BankShape(p.bank) && FabricOk(p.fabric) && BurstsActive(p.bank, p.fabric) }

  lemma {:induction false} DrivenIsActive(f: Fabric, id: nat)
    requires FabricOk(f) && BurstIndex(f, id).Some?
    ensures var d := DriveFrom(f, id); d.outcome.Blocked? ==> d.burst == Some(id) && BurstIndex(d.fabric, id).Some?
    decreases DriveRank(f, id).0, DriveRank(f, id).1
  {
    if f.bursts[BurstIndex(f, id).value].phase.Accepted? {
      AdvanceDrives(f, id);
      var g := AdvanceBurst(f, id);
      if !g.bursts[BurstIndex(g, id).value].phase.InFlight? { DrivenIsActive(g, id); }
    }
  }

  lemma DriveKeepsActive(f: Fabric, burst: Option<nat>, request: BurstRequest, room: bool)
    requires FabricOk(f) && request.Beats() > 0 && (burst.Some? ==> BurstIndex(f, burst.value).Some?)
    ensures var d := DriveBurst(f, burst, request, room);
            FabricOk(d.fabric) && (d.outcome.Blocked? ==> d.burst.Some? && BurstIndex(d.fabric, d.burst.value).Some?)
  {
    DriveKeepsOk(f, burst, request, room);
    hide FabricOk, DriveFrom, SubmitBurst;
    if burst.Some? {
      DrivenIsActive(f, burst.value);
    } else {
      SubmittedIsActive(f, request);
      var s := SubmitBurst(f, request);
      if s.id.Done? { DrivenIsActive(s.fabric, s.id.value); }
    }
  }

  lemma RefillKeepsActive(b: Bank, f: Fabric, refill: PendingRefill, room: bool)
    requires BankShape(b) && b.pending.None? && PendingShape(b.config, PendingLine(None, refill)) && FabricOk(f)
    requires refill.burst.Some? ==> BurstIndex(f, refill.burst.value).Some?
    ensures var a := ContinueRefill(b, f, refill, room); StandShape(Stand(a.bank, a.fabric))
  {
    hide DriveBurst, Install, FabricOk, SetShape, LineShape;
    var request := ReadWords(refill.base, b.config.words, refill.kind);
    DriveKeepsActive(f, refill.burst, request, room);
    var d := DriveBurst(f, refill.burst, request, room);
    if d.outcome.Finished? && d.outcome.response.WordsRead? && |d.outcome.response.words| == b.config.words {
      InstallShape(b, refill, d.outcome.response.words);
    }
  }

  lemma ContinueKeepsActive(b: Bank, f: Fabric, room: Room)
    requires BankShape(b) && FabricOk(f) && BurstsActive(b, f)
    ensures var a := ContinuePending(b, f, room); StandShape(Stand(a.bank, a.fabric))
  {
    hide DriveBurst, ContinueRefill, FabricOk, SetShape;
    if b.pending.Some? {
      var p, g := b.pending.value, f;
      if p.writeBack.Some? {
        var request := WriteWords(p.writeBack.value.base, p.writeBack.value.words);
        DriveKeepsActive(f, p.writeBack.value.burst, request, room.toWrite);
        g := DriveBurst(f, p.writeBack.value.burst, request, room.toWrite).fabric;
      }
      RefillKeepsActive(b.(pending := None), g, p.refill, room.toRead);
    }
  }

  function After(p: Stand, t: Turn): (r: Stand)
    requires StandShape(p)
    ensures StandShape(r)
  {
    match t
    case Clock => TickKeepsActive(p); Stand(p.bank, Tick(p.fabric))
    case Retry(room) =>
      ContinueKeepsActive(p.bank, p.fabric, room);
      var a := ContinuePending(p.bank, p.fabric, room);
      Stand(a.bank, a.fabric)
  }

  lemma TickKeepsActive(p: Stand)
    requires StandShape(p)
    ensures StandShape(Stand(p.bank, Tick(p.fabric)))
  {
    hide FabricOk, Tick, BankShape;
    if p.bank.pending.Some? {
      var q := p.bank.pending.value;
      if q.writeBack.Some? && q.writeBack.value.burst.Some? { TickKeepsIndex(p.fabric, q.writeBack.value.burst.value); }
      if q.refill.burst.Some? { TickKeepsIndex(p.fabric, q.refill.burst.value); }
    }
  }

  function Play(p: Stand, turns: seq<Turn>): (r: Stand)
    requires StandShape(p)
    ensures StandShape(r)
    decreases |turns|
  {
    if turns == [] then p else Play(After(p, turns[0]), turns[1..])
  }

  /** While the victim can go back, every run keeps what can be read. */
  lemma {:induction false} SentRun(p: Stand, turns: seq<Turn>, addr: nat)
    requires BankSound(p.bank, p.fabric) && CanGoBack(p.bank, p.fabric, false)
    ensures StandShape(p)
    ensures var e := Play(p, turns); View(e.bank, e.fabric, addr) == View(p.bank, p.fabric, addr)
    decreases |turns|
  {
    SoundGivesActive(p.bank, p.fabric);
    hide BankSound, View, FabricOk, BurstsActive, ContinuePending, Tick, BankShape, LineWritable;
    if turns != [] {
      match turns[0] {
        case Clock => TickShows(p.bank, p.fabric, addr);
        case Retry(room) => ContinueShows(p.bank, p.fabric, room, addr);
      }
      var q := After(p, turns[0]);
      assert CanGoBack(q.bank, q.fabric, false) by { SameRegionsWritable(p.fabric, q.fabric); }
      SentRun(q, turns[1..], addr);
    }
  }

  lemma SameRegionsWritable(f: Fabric, g: Fabric)
    requires f.regions == g.regions
    ensures forall base :: LineWritable(g, base) == LineWritable(f, base)
  {
  }

  /** With the victim's device read-only the words stay saved until they are dropped, and
      memory never changes. */
  ghost predicate Fruitless(b: Bank, f: Fabric, p: Stand)
    requires StillSaved(b)
  {
    p.fabric.bytes == f.bytes &&
    ((exists id :: WaitsInVain(b, p.bank, p.fabric, id)) || (p.bank == b.(pending := None) && Serves(p.fabric, NoBurst)))
  }

  lemma FruitlessTurn(b: Bank, f: Fabric, p: Stand, t: Turn)
    requires BankShape(b) && StillSaved(b) && StandShape(p) && Fruitless(b, f, p)
    ensures Fruitless(b, f, After(p, t))
  {
    if p.bank.pending.None? {
      if t.Clock? { TickServes(p.fabric, NoBurst); }
      hide Serves, Doomed, Tick, FabricOk, BurstsActive, BankShape;
    } else {
      var id :| WaitsInVain(b, p.bank, p.fabric, id);
      var wb := b.pending.value.writeBack.value;
      var mine := Writing(id, wb.base, wb.words);
      hide Serves, Doomed, Tick, FabricOk, BurstsActive, BankShape, DriveFrom, ContinueRefill;
      match t {
        case Clock =>
          DoomedTick(p.fabric, mine);
          assert WaitsInVain(b, p.bank, Tick(p.fabric), id);
        case Retry(room) =>
          DoomedIsOk(p.fabric, mine);
          DoomedDrives(p.fabric, mine);
          var a := ContinuePending(p.bank, p.fabric, room);
          if a.reply.Busy? { assert WaitsInVain(b, a.bank, a.fabric, id); }
      }
    }
  }

  lemma {:induction false} FruitlessRun(b: Bank, f: Fabric, p: Stand, turns: seq<Turn>)
    requires BankShape(b) && StillSaved(b) && StandShape(p) && Fruitless(b, f, p)
    ensures Fruitless(b, f, Play(p, turns))
    decreases |turns|
  {
    hide Fruitless, After, StandShape;
    if turns != [] {
      FruitlessTurn(b, f, p, turns[0]);
      FruitlessRun(b, f, After(p, turns[0]), turns[1..]);
    }
  }

  /** For the whole operation, whatever retries and ticks follow its first call: until the
      words leave the bank every address reads as before, and from then on an address does
      if and only if it is not in the victim's line, or that first call found room and the
      victim's device takes writes, or memory already held the byte. */
  lemma OperationIsExact(p: Stand, first: Room, turns: seq<Turn>, addr: nat)
    requires BankSound(p.bank, p.fabric) && Unsent(p.bank)
    ensures StandShape(p)
    ensures var e, base := Play(After(p, Retry(first)), turns), p.bank.pending.value.writeBack.value.base;
            if StillSaved(e.bank) then View(e.bank, e.fabric, addr) == View(p.bank, p.fabric, addr)
            else View(e.bank, e.fabric, addr) == View(p.bank, p.fabric, addr) <==>
                   LineBase(p.bank.config, addr) != base || (first.toWrite && LineWritable(p.fabric, base)) ||
                   HeldAlready(p.bank, p.fabric, addr)
  {
    var b, f := p.bank, p.fabric;
    SoundGivesActive(b, f);
    SoundMatches(b, f);
    var base := b.pending.value.writeBack.value.base;
    var q := After(p, Retry(first));
    var e := Play(q, turns);
    if first.toWrite && LineWritable(f, base) {
      ContinueShows(b, f, first, addr);
      hide BankSound, View, FabricOk, BurstsActive, ContinuePending, BankShape, LineBase, HeldAlready;
      assert CanGoBack(q.bank, q.fabric, false) by { SameRegionsWritable(f, q.fabric); }
      SentRun(q, turns, addr);
    } else {
      assert Fruitless(b, f, q) by {
        if first.toWrite { FirstCallIsFutile(b, f, first); } else { TurnedAwayIsFruitless(b, f, first); }
      }
      FruitlessRun(b, f, q, turns);
      hide BankSound, View, FabricOk, BurstsActive, ContinuePending, BankShape, LineBase, HeldAlready, Play, After, Serves, Doomed;
      DroppedView(b, f, e.fabric, addr);
      if StillSaved(e.bank) { SavedView(b, f, e, addr); }
    }
  }

  lemma TurnedAwayIsFruitless(b: Bank, f: Fabric, room: Room)
    requires BankSound(b, f) && Unsent(b) && !room.toWrite
    ensures BankShape(b) && FabricOk(f) && BurstsActive(b, f)
    ensures var a := ContinuePending(b, f, room);
            a.bank == b.(pending := None) && a.fabric == f && a.reply.Busy? && Serves(f, NoBurst)
  {
    SoundGivesActive(b, f);
    hide Serves, ContinueRefill, DriveFrom, SubmitBurst, FabricOk, Readable, LinesMatch, UniqueTags, PendingMatches;
  }

  lemma SavedView(b: Bank, f: Fabric, e: Stand, addr: nat)
    requires BankShape(b) && StillSaved(b) && BankShape(e.bank) && Fruitless(b, f, e) && StillSaved(e.bank)
    ensures View(e.bank, e.fabric, addr) == View(b, f, addr)
  {
    hide Serves, Doomed, Lookup, LineBase, SetOf, ByteIn;
    SameSets(b, e.bank);
  }

  /** The same from the access that evicts: the bytes that can be read after a dirty victim
      has left its way, over every run and for every device and room. */
  lemma EvictionIsExact(b: Bank, f: Fabric, start: nat, kind: AccessKind, first: Room, turns: seq<Turn>, addr: nat)
    requires BankSound(b, f) && b.pending.None? && Lookup(b, start).None? && CachesLine(b.config, LineBase(b.config, start))
    requires Unsent(StartPending(b, start, kind))
    ensures var p := Stand(StartPending(b, start, kind), f);
            StandShape(p) &&
            var e, base := Play(After(p, Retry(first)), turns), p.bank.pending.value.writeBack.value.base;
            View(e.bank, e.fabric, addr) == View(b, f, addr) <==>
              StillSaved(e.bank) || LineBase(b.config, addr) != base || (first.toWrite && LineWritable(f, base)) ||
              HeldAlready(p.bank, f, addr)
  {
    hide BankSound, StartPending, View, Lookup, CachesLine, LineBase, StandShape, Play, After, HeldAlready, LineWritable, BankShape;
    SoundMatches(b, f);
    StartKeepsSound(b, f, start, kind);
    StartKeepsView(b, f, start, kind, addr);
    OperationIsExact(Stand(StartPending(b, start, kind), f), first, turns, addr);
  }
}
