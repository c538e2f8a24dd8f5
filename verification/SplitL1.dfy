/** The split first-level cache. With a write-through data bank every valid instruction
    line equals memory, so a fetch sees every store that has completed. */
module SplitL1 {
  import opened Wrappers
  import opened BusFabric
  import opened FabricProof
  import opened CachePort
  import opened Cache
  import opened CacheProof

  /* ---------- the cache ---------- */

  datatype Split = Split(instruction: Bank, data: Bank, fabric: Fabric)

  datatype Step<T> = Step(split: Split, reply: Reply<T>)

  /** A read past the cache, which the lower bus may make wait. */
  function ReadPast(f: Fabric, addr: nat, busy: bool): Reply<Word4> {
    var region := FindRegion(f.regions, addr);
    if region.None? then Failure(Unmapped(addr))
    else if busy then Busy
    else
      match LoadWord(f, region.value, addr)
      case Done(word) => Got(word)
      case Fault(e) => Failure(e)
  }

  predicate SplitShape(s: Split) {
    BankShape(s.instruction) && BankShape(s.data) && FabricOk(s.fabric) && BurstsActive(s.instruction, s.fabric) &&
    BurstsActive(s.data, s.fabric)
  }

  /** `fetch32`. */
  function Fetch(s: Split, addr: nat, busy: bool): Step<Word4>
    requires SplitShape(s)
  {
    if !Cacheable(s.instruction.config, addr) then Step(s, ReadPast(s.fabric, addr, busy))
    else
      var a := LoadLine(s.instruction, s.fabric, addr, FetchAccess);
      Step(s.(instruction := a.bank, fabric := a.fabric), a.reply)
  }

  /** `load32`. */
  function Load(s: Split, addr: nat, busy: bool): Step<Word4>
    requires SplitShape(s)
  {
    if !Cacheable(s.data.config, addr) then Step(s, ReadPast(s.fabric, addr, busy))
    else
      var a := LoadLine(s.data, s.fabric, addr, LoadAccess);
      Step(s.(data := a.bank, fabric := a.fabric), a.reply)
  }

  /** `invalidate_line`: a pending refill of the line is dropped, a valid line forgotten. */
  function InvalidateLine(b: Bank, addr: nat): (r: Bank)
    requires BankShape(b)
    ensures BankShape(r)
  {
    var base := LineBase(b.config, addr);
    if !CachesLine(b.config, base) then b
    else
      var idle := if b.pending.Some? && b.pending.value.refill.base == base then b.(pending := None) else b;
      var hit := Lookup(b, base);
      if hit.None? then idle
      else
        var set_ := SetOf(b.config, base);
        WithLine(idle, set_, hit.value, LineAt(b, set_, hit.value).(valid := false, dirty := false))
  }

  /** `store8`, `store16` and `store32`. */
  function Store(s: Split, op: StoreOp, busy: bool): Step<()>
    requires SplitShape(s) && op.width <= 4 && Fits(s.data.config, op)
  {
    var a := StoreLine(s.data, s.fabric, op, busy);
    Step(s.(data := a.bank, fabric := a.fabric,
            instruction := if a.reply.Got? then InvalidateLine(s.instruction, op.addr) else s.instruction), a.reply)
  }

  /* ---------- the invariant ---------- */

  /** No line is dirty and no victim waits to go back. */
  ghost predicate Clean(b: Bank)
    requires BankShape(b)
  {
    (forall s, w | 0 <= s < b.config.sets && 0 <= w < b.config.ways && LineAt(b, s, w).valid :: !LineAt(b, s, w).dirty) &&
    (b.pending.Some? ==> b.pending.value.writeBack.None?)
  }

  predicate Apart(a: Mine, b: Mine) { a.NoBurst? || b.NoBurst? || a.id != b.id }

  ghost predicate SplitOk(s: Split) {
    BankOk(s.instruction, s.fabric) && BankOk(s.data, s.fabric) && Clean(s.instruction) && Clean(s.data) &&
    !s.data.config.writeBack && Apart(MineOf(s.instruction), MineOf(s.data))
  }

  /* ---------- one bank beside the other ---------- */

  lemma {:induction false} DriveFromBeside(f: Fabric, id: nat, other: Mine)
    requires Serves(f, other) && FabricOk(f) && BurstIndex(f, id).Some? && !other.Writing?
    requires !other.NoBurst? ==> other.id != id
    ensures var d := DriveFrom(f, id);
            Serves(d.fabric, other) && d.fabric.bytes == f.bytes && d.fabric.regions == f.regions &&
            (d.burst.Some? ==> d.burst.value == id)
    decreases DriveRank(f, id).0, DriveRank(f, id).1
  {
    OtherTakeServes(f, other, id);
    TakeKeepsRegions(f, id);
    hide Serves, FabricOk, TakeBurst;
    if f.bursts[BurstIndex(f, id).value].phase.Accepted? {
      AdvanceDrives(f, id);
      AdvanceServes(f, BurstIndex(f, id).value, other);
      var g := AdvanceBurst(f, id);
      if !g.bursts[BurstIndex(g, id).value].phase.InFlight? { DriveFromBeside(g, id, other); }
    }
  }

  lemma TakeKeepsRegions(f: Fabric, id: nat)
    requires FabricOk(f)
    ensures TakeBurst(f, id).fabric.regions == f.regions
  {
  }

  lemma MineIsOlder(f: Fabric, mine: Mine)
    requires Serves(f, mine) && !mine.NoBurst?
    ensures mine.id < f.nextId
  {
  }

  lemma DriveBeside(f: Fabric, burst: Option<nat>, request: BurstRequest, other: Mine)
    requires Serves(f, other) && FabricOk(f) && request.ReadWords? && request.count > 0 && !other.Writing?
    requires burst.Some? ==> BurstIndex(f, burst.value).Some? && (!other.NoBurst? ==> other.id != burst.value)
    ensures var d := DriveBurst(f, burst, request);
            Serves(d.fabric, other) && d.fabric.bytes == f.bytes && d.fabric.regions == f.regions &&
            (d.burst.Some? && !other.NoBurst? ==> d.burst.value != other.id)
  {
    if burst.Some? {
      DriveFromBeside(f, burst.value, other);
    } else {
      OtherSubmitServes(f, other, request);
      if !other.NoBurst? { MineIsOlder(f, other); }
      var s := SubmitBurst(f, request);
      if s.id.Done? {
        SubmittedIsActive(f, request);
        DriveFromBeside(s.fabric, s.id.value, other);
      }
    }
    hide Serves, DriveFrom, FabricOk;
  }

  /** What a call on one clean bank leaves of the other's burst. */
  ghost predicate Beside<T>(f: Fabric, other: Mine, a: Access<T>) {
    Serves(a.fabric, other) && a.fabric.regions == f.regions && BankShape(a.bank) && Clean(a.bank) && Apart(MineOf(a.bank), other)
  }

  lemma RefillBeside(b: Bank, f: Fabric, other: Mine)
    requires BankOk(b, f) && Clean(b) && b.pending.Some? && Serves(f, other) && !other.Writing? && Apart(MineOf(b), other)
    ensures FabricOk(f) && BurstsActive(b, f)
    ensures var a := ContinuePending(b, f); Beside(f, other, a) && a.fabric.bytes == f.bytes
  {
    hide DriveBurst, Serves, Mapped, LinesMatch, UniqueTags, PendingMatches, FabricOk, Install, BankOk, SetShape;
    OkGivesActive(b, f);
    var refill, c := b.pending.value.refill, b.config;
    var request := ReadWords(refill.base, c.words, refill.kind);
    DriveBeside(f, refill.burst, request, other);
    var d := DriveBurst(f, refill.burst, request);
    if d.outcome.Finished? && d.outcome.response.WordsRead? && |d.outcome.response.words| == c.words {
      InstallShape(b.(pending := None), refill, d.outcome.response.words);
      CleanAfter(b, Install(b.(pending := None), refill, d.outcome.response.words), refill.set_, refill.way);
    } else {
      SameLinesClean(b, ContinuePending(b, f).bank);
    }
  }

  /** One line made clean or forgotten leaves a clean bank. */
  lemma CleanAfter(b: Bank, r: Bank, set_: nat, way: nat)
    requires BankShape(b) && BankShape(r) && Clean(b) && r.config == b.config && set_ < b.config.sets && way < b.config.ways
    requires r.pending.Some? ==> r.pending.value.writeBack.None?
    requires LineAt(r, set_, way).valid ==> !LineAt(r, set_, way).dirty
    requires forall s, w | 0 <= s < b.config.sets && 0 <= w < b.config.ways && !(s == set_ && w == way) ::
      LineAt(r, s, w) == LineAt(b, s, w)
    ensures Clean(r)
  {
  }

  lemma SameLinesClean(b: Bank, r: Bank)
    requires BankShape(b) && BankShape(r) && Clean(b) && r.config == b.config && r.sets == b.sets
    requires r.pending.Some? ==> r.pending.value.writeBack.None?
    ensures Clean(r)
  {
    assert forall s, w | 0 <= s < b.config.sets && 0 <= w < b.config.ways :: LineAt(r, s, w) == LineAt(b, s, w);
  }

  lemma StartClean(b: Bank, addr: nat, kind: AccessKind)
    requires BankShape(b) && Clean(b) && b.pending.None?
    ensures var r := StartPending(b, addr, kind); Clean(r) && MineOf(r).NoBurst?
  {
    SameCacheLines(b, addr, kind);
    StartPendingShape(b, addr, kind);
    var r := StartPending(b, addr, kind);
    var way := r.pending.value.refill.way;
    assert LineAt(b, SetOf(b.config, addr), way).valid ==> !LineAt(b, SetOf(b.config, addr), way).dirty;
    hide StartPending, SelectVictim, SetOf, TagOf, LineBase, BaseFor;
  }

  lemma ContinueBeside(b: Bank, f: Fabric, other: Mine)
    requires BankOk(b, f) && Clean(b) && Serves(f, other) && !other.Writing? && Apart(MineOf(b), other)
    ensures FabricOk(f) && BurstsActive(b, f)
    ensures var a := ContinuePending(b, f); Beside(f, other, a) && a.fabric.bytes == f.bytes
  {
    OkGivesActive(b, f);
    if b.pending.Some? { RefillBeside(b, f, other); }
  }

  lemma RefilledBeside(b: Bank, f: Fabric, addr: nat, kind: AccessKind, other: Mine)
    requires BankOk(b, f) && Clean(b) && Serves(f, other) && !other.Writing? && b.pending.None?
    requires Lookup(b, addr).None? && CachesLine(b.config, LineBase(b.config, addr))
    ensures FabricOk(f)
    ensures var a := Refilled(b, f, addr, kind); Beside(f, other, a) && a.fabric.bytes == f.bytes
  {
    OkGivesActive(b, f);
    StartKeepsOk(b, f, addr, kind);
    StartClean(b, addr, kind);
    ContinueBeside(StartPending(b, addr, kind), f, other);
    hide BankOk, ContinuePending, StartPending, Lookup, Serves, CachesLine, LineBase;
  }

  lemma EnsureBeside(b: Bank, f: Fabric, addr: nat, kind: AccessKind, other: Mine)
    requires BankOk(b, f) && Clean(b) && Serves(f, other) && !other.Writing? && Apart(MineOf(b), other)
    requires CachesLine(b.config, LineBase(b.config, addr))
    ensures FabricOk(f) && BurstsActive(b, f)
    ensures var a := EnsureLine(b, f, addr, kind); Beside(f, other, a) && a.fabric.bytes == f.bytes
  {
    OkGivesActive(b, f);
    ContinueKeeps(b, f, 0);
    ContinueBeside(b, f, other);
    var first := ContinuePending(b, f);
    hide BankOk, ContinuePending, Lookup, Serves, CachesLine, LineBase, Refilled, View, Clean;
    if !Occupied(b, addr) && first.reply.Got? && Lookup(first.bank, addr).None? {
      RefilledBeside(first.bank, first.fabric, addr, kind, other);
    }
  }

  lemma TouchClean(b: Bank, set_: nat, way: nat)
    requires BankShape(b) && Clean(b) && set_ < b.config.sets && way < b.config.ways
    ensures Clean(Touch(b, set_, way)) && MineOf(Touch(b, set_, way)) == MineOf(b)
  {
    TouchShape(b, set_, way);
    var r := Touch(b, set_, way);
    hide Touch;
    forall s, w | 0 <= s < b.config.sets && 0 <= w < b.config.ways && LineAt(r, s, w).valid ensures !LineAt(r, s, w).dirty {
      assert Ageless(LineAt(r, s, w)) == Ageless(LineAt(b, s, w));
    }
  }

  lemma LoadBeside(b: Bank, f: Fabric, addr: nat, kind: AccessKind, other: Mine)
    requires BankOk(b, f) && Clean(b) && Serves(f, other) && !other.Writing? && Apart(MineOf(b), other)
    requires CachesLine(b.config, LineBase(b.config, addr))
    ensures FabricOk(f) && BurstsActive(b, f)
    ensures var a := LoadLine(b, f, addr, kind); Beside(f, other, a) && a.fabric.bytes == f.bytes
  {
    EnsureBeside(b, f, addr, kind, other);
    var e := EnsureLine(b, f, addr, kind);
    if e.reply.Got? { TouchClean(e.bank, SetOf(b.config, addr), e.reply.value); }
    hide BankOk, EnsureLine, Serves, CachesLine, LineBase, Touch, Clean, SetOf, MineOf;
  }

  /* ---------- memory under clean banks ---------- */

  /** The same bank over a fabric that holds the same bytes. */
  lemma SameBytesOk(b: Bank, f: Fabric, g: Fabric)
    requires BankOk(b, f) && g.bytes == f.bytes && g.regions == f.regions && Serves(g, MineOf(b))
    ensures BankOk(b, g)
  {
    LinesMatchSame(b, b, f, g);
    MappedSame(b.config, f, g);
    hide Serves, Mapped, LinesMatch, UniqueTags, PendingMatches;
  }

  /** A clean bank shows memory itself. */
  lemma CleanShowsMemory(b: Bank, f: Fabric, addr: nat)
    requires BankOk(b, f) && Clean(b)
    ensures View(b, f, addr) == if addr in f.bytes then Some(f.bytes[addr]) else None
  {
    LookupHits(b, addr);
    var hit := Lookup(b, addr);
    if hit.Some? {
      CleanLineIsMemory(b, f, addr, hit.value);
    } else {
      ViewOfMemory(b, f, addr);
    }
    hide Serves, Mapped, LinesMatch, UniqueTags, PendingMatches, Lookup, SetOf, LineBase, ByteIn;
  }

  lemma ReadIsMemory(b: Bank, f: Fabric, addr: nat, kind: AccessKind)
    requires BankOk(b, f) && Clean(b) && CachesLine(b.config, LineBase(b.config, addr))
    ensures FabricOk(f) && BurstsActive(b, f)
    ensures var a := LoadLine(b, f, addr, kind);
            a.reply.Got? ==> WordAt(f.bytes, WordBase(b.config, addr)) == Some(a.reply.value)
  {
    hide BankOk, LoadLine, WordBase, CachesLine, LineBase, View, Clean, BankShape;
    OkGivesActive(b, f);
    var base := WordBase(b.config, addr);
    if LoadLine(b, f, addr, kind).reply.Got? {
      LoadKeeps(b, f, addr, kind, base);
      LoadKeeps(b, f, addr, kind, base + 1);
      LoadKeeps(b, f, addr, kind, base + 2);
      LoadKeeps(b, f, addr, kind, base + 3);
      CleanShowsMemory(b, f, base);
      CleanShowsMemory(b, f, base + 1);
      CleanShowsMemory(b, f, base + 2);
      CleanShowsMemory(b, f, base + 3);
    }
  }

  /** A fetch or a load keeps the cache in order and memory as it was, and returns what
      memory holds. */
  lemma FetchCoherent(s: Split, addr: nat, busy: bool)
    requires SplitOk(s)
    ensures SplitShape(s)
    ensures var r := Fetch(s, addr, busy);
            SplitOk(r.split) && r.split.fabric.bytes == s.fabric.bytes &&
            (Cacheable(s.instruction.config, addr) && r.reply.Got? ==>
               WordAt(s.fabric.bytes, WordBase(s.instruction.config, addr)) == Some(r.reply.value))
  {
    OkGivesActive(s.instruction, s.fabric);
    OkGivesActive(s.data, s.fabric);
    if Cacheable(s.instruction.config, addr) {
      NotWriting(s.data, s.fabric);
      BankServes(s.data, s.fabric);
      LoadBeside(s.instruction, s.fabric, addr, FetchAccess, MineOf(s.data));
      LoadKeeps(s.instruction, s.fabric, addr, FetchAccess, 0);
      ReadIsMemory(s.instruction, s.fabric, addr, FetchAccess);
      SameBytesOk(s.data, s.fabric, LoadLine(s.instruction, s.fabric, addr, FetchAccess).fabric);
    }
    hide BankOk, LoadLine, WordBase, CachesLine, CachesAddress, LineBase, View, Clean, MineOf, Serves;
  }

  lemma LoadCoherent(s: Split, addr: nat, busy: bool)
    requires SplitOk(s)
    ensures SplitShape(s)
    ensures var r := Load(s, addr, busy);
            SplitOk(r.split) && r.split.fabric.bytes == s.fabric.bytes &&
            (Cacheable(s.data.config, addr) && r.reply.Got? ==>
               WordAt(s.fabric.bytes, WordBase(s.data.config, addr)) == Some(r.reply.value))
  {
    OkGivesActive(s.instruction, s.fabric);
    OkGivesActive(s.data, s.fabric);
    if Cacheable(s.data.config, addr) {
      NotWriting(s.instruction, s.fabric);
      BankServes(s.instruction, s.fabric);
      LoadBeside(s.data, s.fabric, addr, LoadAccess, MineOf(s.instruction));
      LoadKeeps(s.data, s.fabric, addr, LoadAccess, 0);
      ReadIsMemory(s.data, s.fabric, addr, LoadAccess);
      SameBytesOk(s.instruction, s.fabric, LoadLine(s.data, s.fabric, addr, LoadAccess).fabric);
    }
    hide BankOk, LoadLine, WordBase, CachesLine, CachesAddress, LineBase, View, Clean, MineOf, Serves;
  }

  lemma NotWriting(b: Bank, f: Fabric)
    requires BankOk(b, f) && Clean(b)
    ensures !MineOf(b).Writing?
  {
  }

  lemma BankServes(b: Bank, f: Fabric)
    requires BankOk(b, f)
    ensures Serves(f, MineOf(b)) && FabricOk(f) && Backed(f)
  {
  }

  /* ---------- stores ---------- */

  /** What a store through one clean bank leaves of the other's burst, the stored bytes
      aside. */
  ghost predicate StoredBeside(f: Fabric, op: StoreOp, other: Mine, a: Access<()>)
    requires op.width <= 4
  {
    Serves(a.fabric.(bytes := f.bytes), other) && a.fabric.regions == f.regions &&
    SameOutside(f.bytes, a.fabric.bytes, op.addr, op.width) && BankShape(a.bank) && Clean(a.bank) &&
    Apart(MineOf(a.bank), other) && (a.reply.Busy? ==> a.fabric.bytes == f.bytes) &&
    (a.reply.Got? ==> Replaced(f.bytes, a.fabric.bytes, op))
  }

  lemma CommitBeside(b: Bank, f: Fabric, op: StoreOp, busy: bool, other: Mine)
    requires FabricOk(f) && Backed(f) && op.width <= 4 && Serves(f, other) && BankShape(b) && Clean(b) && Apart(MineOf(b), other)
    ensures var d := CommitStore(f, op, busy); StoredBeside(f, op, other, Access(b, d.fabric, d.reply))
  {
    CommitFacts(f, op, busy);
    var d := CommitStore(f, op, busy);
    assert d.fabric.(bytes := f.bytes) == f;
    hide CommitStore, Serves, Clean, FabricOk, MineOf;
  }

  lemma HitBeside(b: Bank, f: Fabric, op: StoreOp, way: nat, busy: bool, other: Mine)
    requires FabricOk(f) && Backed(f) && op.width <= 4 && Serves(f, other) && BankShape(b) && Clean(b) && Apart(MineOf(b), other)
    requires way < b.config.ways && Fits(b.config, op) && !b.config.writeBack && b.pending.None?
    ensures StoredBeside(f, op, other, StoreHit(b, f, op, way, busy))
  {
    CommitBeside(b, f, op, busy, other);
    UpdateShape(b, op, way, false);
    CleanAfter(b, UpdateLine(b, op, way, false), SetOf(b.config, op.addr), way);
    hide CommitStore, UpdateLine, Serves, Clean, FabricOk, SetOf, TagOf, Applied;
  }

  lemma StoreBeside(b: Bank, f: Fabric, op: StoreOp, busy: bool, other: Mine)
    requires BankOk(b, f) && Clean(b) && Serves(f, other) && !other.Writing? && Apart(MineOf(b), other)
    requires op.width <= 4 && Fits(b.config, op) && !b.config.writeBack
    ensures FabricOk(f) && BurstsActive(b, f)
    ensures StoredBeside(f, op, other, StoreLine(b, f, op, busy))
  {
    hide BankOk, ContinuePending, Lookup, Serves, CachesLine, CachesAddress, LineBase, Refilled, View, Clean, StoreHit,
         CommitStore, FabricOk, MineOf, Fits, BankShape, StoredBeside, BurstsActive;
    OkGivesActive(b, f);
    BankServes(b, f);
    CommitBeside(b, f, op, busy, other);
    if Cacheable(b.config, op.addr) {
      SameBytesBeside(b, f, op, other);
      if !Occupied(b, op.addr) {
        ContinueKeeps(b, f, 0);
        ContinueBeside(b, f, other);
        var first := ContinuePending(b, f);
        if first.reply.Got? {
          IdleStoreBeside(first.bank, first.fabric, op, busy, other);
          BesideFrom(f, first.fabric, op, other, StoreIdle(first.bank, first.fabric, op, busy));
        } else {
          StillBeside(f, op, other, first);
        }
      }
    }
  }

  lemma BesideFrom(f: Fabric, g: Fabric, op: StoreOp, other: Mine, a: Access<()>)
    requires op.width <= 4 && StoredBeside(g, op, other, a) && g.bytes == f.bytes && g.regions == f.regions
    ensures StoredBeside(f, op, other, a)
  {
  }

  lemma SameBytesBeside(b: Bank, f: Fabric, op: StoreOp, other: Mine)
    requires BankShape(b) && Clean(b) && Serves(f, other) && Apart(MineOf(b), other) && op.width <= 4
    ensures StoredBeside(f, op, other, Access(b, f, Busy))
  {
    assert f.(bytes := f.bytes) == f;
    hide Serves, Clean, MineOf;
  }

  /** A call that did not get as far as the store. */
  lemma StillBeside<T>(f: Fabric, op: StoreOp, other: Mine, a: Access<T>)
    requires Beside(f, other, a) && a.fabric.bytes == f.bytes && op.width <= 4
    ensures StoredBeside(f, op, other, Access(a.bank, a.fabric, Busy))
  {
    assert a.fabric.(bytes := f.bytes) == a.fabric;
    hide Serves, Clean, MineOf;
  }

  lemma IdleStoreBeside(b: Bank, f: Fabric, op: StoreOp, busy: bool, other: Mine)
    requires BankOk(b, f) && Clean(b) && Serves(f, other) && !other.Writing? && b.pending.None?
    requires op.width <= 4 && Fits(b.config, op) && !b.config.writeBack && CachesLine(b.config, LineBase(b.config, op.addr))
    ensures FabricOk(f) && StoredBeside(f, op, other, StoreIdle(b, f, op, busy))
  {
    hide Lookup, CachesLine, LineBase, Refilled, View, StoreHit, CommitStore, Fits;
    OkGivesActive(b, f);
    BankServes(b, f);
    var hit := Lookup(b, op.addr);
    if hit.Some? {
      HitBeside(b, f, op, hit.value, busy, other);
    } else if !b.config.writeAllocate {
      CommitBeside(b, f, op, busy, other);
    } else {
      RefilledBeside(b, f, op.addr, LoadAccess, other);
      RefilledKeeps(b, f, op.addr, LoadAccess, 0);
      var e := Refilled(b, f, op.addr, LoadAccess);
      StillBeside(f, op, other, e);
      BankServes(e.bank, e.fabric);
      if e.reply.Got? {
        HitBeside(e.bank, e.fabric, op, e.reply.value, busy, other);
      }
    }
  }

  /* ---------- invalidation ---------- */

  lemma InvalidateShape(b: Bank, f: Fabric, addr: nat)
    requires BankOk(b, f)
    ensures var r, base, set_ := InvalidateLine(b, addr), LineBase(b.config, addr), SetOf(b.config, addr);
            r.config == b.config &&
            (CachesLine(b.config, base) ==>
               r.pending == (if b.pending.Some? && b.pending.value.refill.base == base then None else b.pending)) &&
            (!CachesLine(b.config, base) ==> r == b) &&
            (forall s, w | 0 <= s < b.config.sets && 0 <= w < b.config.ways ::
               LineAt(r, s, w) == if CachesLine(b.config, base) && s == set_ && LineAt(b, s, w).valid && LineAt(b, s, w).tag == TagOf(b.config, addr)
                 then LineAt(b, s, w).(valid := false, dirty := false) else LineAt(b, s, w))
  {
    BaseDecodes(b.config, addr);
    var c, base := b.config, LineBase(b.config, addr);
    LookupHits(b, base);
    hide Lookup, SetOf, TagOf, LineBase, CachesLine, Serves, Mapped, LinesMatch, PendingMatches, Quotient, Remainder, LineNumber;
    var hit := Lookup(b, base);
    if hit.None? {
      assert forall w | 0 <= w < c.ways :: !HitAt(b, base, w);
    }
  }

  /** Forgetting a reading burst leaves one more read that nobody waits for. */
  lemma ForgetBurst(f: Fabric, mine: Mine)
    requires Serves(f, mine) && !mine.Writing?
    ensures Serves(f, NoBurst)
  {
  }

  /** Once the bytes of a store are in memory and its line is invalidated, the bank is in
      order over the new memory. */
  lemma InvalidateKeeps(b: Bank, f: Fabric, g: Fabric, op: StoreOp)
    requires BankOk(b, f) && Clean(b) && op.width <= 4 && Fits(b.config, op)
    requires g == f.(bytes := g.bytes) && SameOutside(f.bytes, g.bytes, op.addr, op.width)
    ensures var r := InvalidateLine(b, op.addr);
            BankOk(r, g) && Clean(r) && (MineOf(r) == MineOf(b) || MineOf(r).NoBurst?)
  {
    var c, r, base := b.config, InvalidateLine(b, op.addr), LineBase(b.config, op.addr);
    InvalidateShape(b, f, op.addr);
    NotWriting(b, f);
    ForgetBurst(f, MineOf(b));
    BaseDecodes(c, op.addr);
    StoreInLine(c, op);
    MappedSame(c, f, g);
    if MineOf(r).NoBurst? {
      StoreServes(f, g.bytes, NoBurst, op.addr, op.width);
    } else {
      RefillElsewhere(b, f, op);
      StoreServes(f, g.bytes, MineOf(b), op.addr, op.width);
    }
    InvalidatedMatches(b, r, f, g, op);
    InvalidatedPending(b, r, f, op);
    hide InvalidateLine, Serves, Mapped, LineBase, SetOf, TagOf, BaseFor, CachesLine, Holds, Lookup, LinesMatch, PendingMatches;
  }

  lemma RefillElsewhere(b: Bank, f: Fabric, op: StoreOp)
    requires BankOk(b, f) && Clean(b) && op.width <= 4 && Fits(b.config, op) && b.pending.Some?
    requires b.pending.value.refill.base != LineBase(b.config, op.addr) || !CachesLine(b.config, LineBase(b.config, op.addr))
    ensures var mine := MineOf(b);
            !mine.NoBurst? ==> op.addr + op.width <= mine.base || mine.base + 4 * mine.Request().Beats() <= op.addr
  {
    var refill := b.pending.value.refill;
    StoreInLine(b.config, op);
    BaseDecodes(b.config, op.addr);
    EncodeRoundTrip(b.config, refill.set_, refill.tag);
    LinesApart(b.config, refill.base, LineBase(b.config, op.addr));
    hide Serves, Mapped, LinesMatch, UniqueTags, Lookup;
  }

  lemma InvalidatedMatches(b: Bank, r: Bank, f: Fabric, g: Fabric, op: StoreOp)
    requires BankOk(b, f) && Clean(b) && op.width <= 4 && Fits(b.config, op) && r == InvalidateLine(b, op.addr)
    requires SameOutside(f.bytes, g.bytes, op.addr, op.width)
    ensures LinesMatch(r, g) && UniqueTags(r) && Clean(r)
  {
    var c, base := b.config, LineBase(b.config, op.addr);
    InvalidateShape(b, f, op.addr);
    DecodeRoundTrip(c, op.addr);
    BaseDecodes(c, op.addr);
    StoreInLine(c, op);
    hide InvalidateLine, Serves, Mapped, Lookup;
    forall s, w | 0 <= s < c.sets && 0 <= w < c.ways && LineAt(r, s, w).valid
      ensures LineAt(r, s, w) == LineAt(b, s, w) && Held(c, g, s, LineAt(r, s, w))
    {
      var line := LineAt(b, s, w);
      EncodeRoundTrip(c, s, line.tag);
      LinesApart(c, if BaseFor(c, s, line.tag) == base then base + c.LineSize() else BaseFor(c, s, line.tag), base)
        by { NextLine(c, base); }
      HoldsElsewhere(f.bytes, g.bytes, op.addr, op.width, BaseFor(c, s, line.tag), line.words);
    }
    hide Quotient, Remainder, LineNumber, LineBase, SetOf, TagOf, BaseFor, CachesLine, Holds;
  }

  lemma NextLine(c: Config, base: nat)
    requires c.Ok() && LineBase(c, base) == base
    ensures LineBase(c, base + c.LineSize()) == base + c.LineSize()
  {
    QuotientIsUnique(LineNumber(c, base) + 1, c.LineSize(), 0);
  }

  lemma InvalidatedPending(b: Bank, r: Bank, f: Fabric, op: StoreOp)
    requires BankOk(b, f) && Clean(b) && op.width <= 4 && Fits(b.config, op) && r == InvalidateLine(b, op.addr)
    ensures PendingMatches(r)
  {
    InvalidateShape(b, f, op.addr);
    if r.pending.Some? {
      LookupHits(b, r.pending.value.refill.base);
      LookupHits(r, r.pending.value.refill.base);
    }
    hide InvalidateLine, Serves, Mapped, Lookup, LinesMatch, UniqueTags, Quotient, Remainder, LineNumber, LineBase, SetOf,
         TagOf, BaseFor, CachesLine;
  }

  /* ---------- code coherence ---------- */

  /** A store that completes puts exactly its bytes in memory and leaves both banks in
      order over the new memory, the instruction bank included even when a refill of the
      stored-to line was in progress; a store told to wait changes no memory. */
  lemma StoreCoherent(s: Split, op: StoreOp, busy: bool)
    requires SplitOk(s) && op.width <= 4 && Fits(s.data.config, op) && Fits(s.instruction.config, op)
    ensures SplitShape(s)
    ensures var r := Store(s, op, busy);
            (r.reply.Busy? ==> SplitOk(r.split) && r.split.fabric.bytes == s.fabric.bytes) &&
            (r.reply.Got? ==> SplitOk(r.split) && Replaced(s.fabric.bytes, r.split.fabric.bytes, op)) &&
            (Cacheable(s.data.config, op.addr) ==> !r.reply.Failure?)
  {
    hide BankOk, StoreLine, CachesLine, CachesAddress, LineBase, View, Clean, MineOf, Serves, InvalidateLine, BankShape,
         FabricOk, BurstsActive, Fits;
    OkGivesActive(s.instruction, s.fabric);
    OkGivesActive(s.data, s.fabric);
    NotWriting(s.instruction, s.fabric);
    BankServes(s.instruction, s.fabric);
    StoreBeside(s.data, s.fabric, op, busy, MineOf(s.instruction));
    StoreKeeps(s.data, s.fabric, op, busy, 0);
    var a := StoreLine(s.data, s.fabric, op, busy);
    var waiting := a.fabric.(bytes := s.fabric.bytes);
    SameBytesOk(s.instruction, s.fabric, waiting);
    if a.reply.Got? {
      InvalidateKeeps(s.instruction, waiting, a.fabric, op);
    } else if a.reply.Busy? {
      assert waiting == a.fabric;
    }
  }

  lemma ClockCoherent(s: Split)
    requires SplitOk(s)
    ensures FabricOk(s.fabric) && SplitOk(s.(fabric := Tick(s.fabric))) && Tick(s.fabric).bytes == s.fabric.bytes
  {
    OkGivesActive(s.instruction, s.fabric);
    TickKeeps(s.instruction, s.fabric, 0);
    TickKeeps(s.data, s.fabric, 0);
    NotWriting(s.data, s.fabric);
    BankServes(s.data, s.fabric);
    TickServes(s.fabric, MineOf(s.data));
    hide BankOk, Tick, Serves, Clean, View, MineOf;
  }

  /** Every byte of a valid instruction line is the byte in memory. */
  lemma InstructionLinesMatch(s: Split, addr: nat, way: nat)
    requires SplitOk(s) && HitAt(s.instruction, addr, way)
    ensures addr in s.fabric.bytes
    ensures s.fabric.bytes[addr] == ByteIn(LineAt(s.instruction, SetOf(s.instruction.config, addr), way).words,
                                           addr - LineBase(s.instruction.config, addr))
  {
    hide Serves, Mapped, UniqueTags, PendingMatches, LineBase, SetOf, TagOf, LinesMatch, ByteIn;
    CleanLineIsMemory(s.instruction, s.fabric, addr, way);
  }

  datatype Event =
    | Clock
    | Fetching(addr: nat, busy: bool)
    | Loading(addr: nat, busy: bool)
    | Storing(op: StoreOp, busy: bool)

  predicate Allowed(s: Split, e: Event)
    requires s.data.config.Ok() && s.instruction.config.Ok()
  {
    e.Storing? ==> e.op.width <= 4 && Fits(s.data.config, e.op) && Fits(s.instruction.config, e.op)
  }

  /** The run is one on plain memory `bytes`: fetches and loads through the caches return
      its words, and completed stores are the only changes to it. */
  ghost predicate Coherent(s: Split, bytes: Bytes, events: seq<Event>)
    decreases |events|
  {
    events == [] ||
      (SplitShape(s) && s.fabric.bytes == bytes && Allowed(s, events[0]) &&
       match events[0]
       case Clock => Coherent(s.(fabric := Tick(s.fabric)), bytes, events[1..])
       case Fetching(addr, busy) =>
         var r, c := Fetch(s, addr, busy), s.instruction.config;
         (Cacheable(c, addr) && r.reply.Got? ==> WordAt(bytes, WordBase(c, addr)) == Some(r.reply.value)) &&
         Coherent(r.split, bytes, events[1..])
       case Loading(addr, busy) =>
         var r, c := Load(s, addr, busy), s.data.config;
         (Cacheable(c, addr) && r.reply.Got? ==> WordAt(bytes, WordBase(c, addr)) == Some(r.reply.value)) &&
         Coherent(r.split, bytes, events[1..])
       case Storing(op, busy) =>
         var r := Store(s, op, busy);
         (Cacheable(s.data.config, op.addr) ==> !r.reply.Failure?) &&
         (r.reply.Busy? ==> Coherent(r.split, bytes, events[1..])) &&
         (r.reply.Got? ==> Replaced(bytes, r.split.fabric.bytes, op) && Coherent(r.split, r.split.fabric.bytes, events[1..])))
  }

  /** With a write-through data bank, over every run, a fetch after a completed store
      returns the stored word. */
  lemma {:induction false} FetchesSeeStores(s: Split, events: seq<Event>)
    requires SplitOk(s) && forall k | 0 <= k < |events| :: Allowed(s, events[k])
    ensures Coherent(s, s.fabric.bytes, events)
    decreases |events|
  {
    if events != [] {
      OkGivesActive(s.instruction, s.fabric);
      OkGivesActive(s.data, s.fabric);
      ConfigsStay(s, events[0]);
      hide SplitOk, Fetch, Load, Store, Tick, CachesLine, CachesAddress, LineBase, WordBase, Replaced, BankOk, BankShape, FabricOk,
           BurstsActive, Fits, Cacheable;
      match events[0] {
        case Clock =>
          ClockCoherent(s);
          FetchesSeeStores(s.(fabric := Tick(s.fabric)), events[1..]);
        case Fetching(addr, busy) =>
          FetchCoherent(s, addr, busy);
          FetchesSeeStores(Fetch(s, addr, busy).split, events[1..]);
        case Loading(addr, busy) =>
          LoadCoherent(s, addr, busy);
          FetchesSeeStores(Load(s, addr, busy).split, events[1..]);
        case Storing(op, busy) =>
          StoreCoherent(s, op, busy);
          if !Store(s, op, busy).reply.Failure? { FetchesSeeStores(Store(s, op, busy).split, events[1..]); }
      }
    }
  }

  lemma ConfigsStay(s: Split, e: Event)
    requires SplitOk(s) && Allowed(s, e)
    ensures SplitShape(s)
    ensures match e
            case Clock => true
            case Fetching(addr, busy) => var r := Fetch(s, addr, busy).split;
              r.data.config == s.data.config && r.instruction.config == s.instruction.config
            case Loading(addr, busy) => var r := Load(s, addr, busy).split;
              r.data.config == s.data.config && r.instruction.config == s.instruction.config
            case Storing(op, busy) => var r := Store(s, op, busy).split;
              r.data.config == s.data.config && r.instruction.config == s.instruction.config
  {
    OkGivesActive(s.instruction, s.fabric);
    OkGivesActive(s.data, s.fabric);
    if e.Storing? {
      StoreKeeps(s.data, s.fabric, e.op, e.busy, 0);
      InvalidateShape(s.instruction, s.fabric, e.op.addr);
    }
    hide BankOk, StoreLine, LoadLine, InvalidateLine, View, CachesLine, CachesAddress, LineBase;
  }
}
