/** Two runs of a new bank in which a stored byte is lost: the victim's device is read-only,
    or the lower bus has no room for the write-back. */
module CacheExamples {
  import opened Wrappers
  import opened BusFabric
  import opened CachePort
  import opened Cache
  import opened CacheProof

  /** One write-back line of one word, allocated by stores. */
  const SMALL: Config := Config(1, 1, 1, true, true, true, [Range(0, 8)])

  const ONE: Word4 := Word4(1, 0, 0, 0)

  const ZEROS: Bytes := map[0 := 0, 1 := 0, 2 := 0, 3 := 0, 4 := 0, 5 := 0, 6 := 0, 7 := 0]

  const AT_ONCE: (nat, nat, AccessKind) -> nat := (region: nat, addr: nat, kind: AccessKind) => 0

  /** Eight zero bytes in one device that answers at once, after `next` requests. */
  function Device(writable: bool, next: nat): Fabric {
    Fabric.Fabric([Region(0, 8, writable)], AT_ONCE, ZEROS, [], [], next)
  }

  function BankWith(line: CacheLine, pending: Option<PendingLine>, epoch: nat): Bank {
    Bank(SMALL, [CacheSet([line], 0)], pending, epoch)
  }

  const EMPTY: CacheLine := CacheLine(false, false, 0, [ZERO_WORD], 0)

  const FRESH: Bank := BankWith(EMPTY, None, 0)
  const FILLING: Bank := BankWith(EMPTY, Some(PendingLine(None, PendingRefill(0, 0, 0, 0, LoadAccess, None))), 0)
  const FILLED: Bank := BankWith(CacheLine(true, false, 0, [ZERO_WORD], 1), None, 1)
  const STORED: Bank := BankWith(CacheLine(true, true, 0, [ONE], 2), None, 2)
  const EVICTING: Bank := BankWith(CacheLine(false, false, 0, [ONE], 2),
    Some(PendingLine(Some(PendingWriteBack(0, [ONE], None)), PendingRefill(4, 0, 1, 0, LoadAccess, None))), 2)
  const DROPPED: Bank := BankWith(CacheLine(false, false, 0, [ONE], 2), None, 2)

  lemma FreshIsFresh()
    ensures SMALL.Ok() && FreshBank(SMALL) == FRESH
  {
    assert ZeroWords(1) == [ZERO_WORD];
    assert FreshBank(SMALL).sets[0].lines == [EMPTY];
    assert FreshBank(SMALL).sets == [CacheSet([EMPTY], 0)];
  }

  predicate Decoded(addr: nat, tag: nat) {
    LineBase(SMALL, addr) == addr && SetOf(SMALL, addr) == 0 && TagOf(SMALL, addr) == tag && BaseFor(SMALL, 0, tag) == addr
  }

  lemma BaseOfTag(tag: nat)
    ensures BaseFor(SMALL, 0, tag) == 4 * tag
  {
    TimesIsProduct(tag, 1);
    TimesIsProduct(tag, 4);
  }

  lemma Decodes(tag: nat)
    ensures Decoded(4 * tag, tag)
  {
    hide LineBase, SetOf, TagOf, BaseFor, LineNumber;
    BaseOfTag(tag);
    EncodeRoundTrip(SMALL, 0, tag);
  }

  lemma DecodesZero()
    ensures LineBase(SMALL, 0) == 0 && SetOf(SMALL, 0) == 0 && TagOf(SMALL, 0) == 0
  {
    hide LineBase, SetOf, TagOf, BaseFor;
    Decodes(0);
  }

  lemma DeviceOk(writable: bool, next: nat)
    ensures FabricOk(Device(writable, next)) && Backed(Device(writable, next))
  {
  }

  /* ---------- what the device does ---------- */

  lemma ReadsZero(writable: bool, next: nat)
    ensures FabricOk(Device(writable, next))
    ensures DriveBurst(Device(writable, next), None, ReadWords(0, 1, LoadAccess))
         == Driven(Device(writable, next + 1), None, Finished(WordsRead([ZERO_WORD])))
  {
    DeviceOk(writable, next);
    var f, request := Device(writable, next), ReadWords(0, 1, LoadAccess);
    var x := ActiveBurst(next, 0, request, 0, [ZERO_WORD], Accepted);
    assert ZeroWords(1) == [ZERO_WORD];
    var g := f.(nextId := next + 1, bursts := [x]);
    assert SubmitBurst(f, request) == Submitted(g, Done(next));
    Answers(g, x, f, WordsRead([ZERO_WORD]));
  }

  /** A burst of one beat that is the only one and succeeds at once. */
  lemma Answers(g: Fabric, x: ActiveBurst, f: Fabric, response: BurstResponse)
    requires FabricOk(g) && g.bursts == [x] && BurstOk(g, x) && x.phase.Accepted? && Executes(g, x) && x.request.Beats() == 1
    requires x.beat < 1
    requires var a := ExecuteBeat(g, x); a.burst.phase.Ready? && a.bytes == f.bytes && ResponseOf(a.burst) == response
    requires f.bursts == []
    ensures BurstIndex(g, x.id).Some? && DriveFrom(g, x.id) == Driven(g.(bytes := f.bytes, bursts := []), None, Finished(response))
  {
    var h := AdvanceBurst(g, x.id);
    assert h.bursts == [AdvanceOne(g, x).burst];
    hide ExecuteBeat, FabricOk;
  }

  lemma WriteFails(next: nat)
    ensures FabricOk(Device(false, next))
    ensures DriveBurst(Device(false, next), None, WriteWords(0, [ONE]))
         == Driven(Device(false, next + 1), None, Broken(ReadOnlyAt(0)))
  {
    DeviceOk(false, next);
    var f, request := Device(false, next), WriteWords(0, [ONE]);
    var x := ActiveBurst(next, 0, request, 0, [ZERO_WORD], Accepted);
    assert ZeroWords(1) == [ZERO_WORD];
    var g := f.(nextId := next + 1, bursts := [x]);
    assert SubmitBurst(f, request) == Submitted(g, Done(next));
    Fails(g, x, f, ReadOnlyAt(0));
  }

  lemma Fails(g: Fabric, x: ActiveBurst, f: Fabric, e: Error)
    requires FabricOk(g) && g.bursts == [x] && BurstOk(g, x) && x.phase.Accepted? && Executes(g, x) && x.beat < x.request.Beats()
    requires ExecuteBeat(g, x) == Advanced(f.bytes, x.(phase := Failed(e))) && f.bursts == []
    ensures BurstIndex(g, x.id).Some? && DriveFrom(g, x.id) == Driven(g.(bytes := f.bytes, bursts := []), None, Broken(e))
  {
    var h := AdvanceBurst(g, x.id);
    assert h.bursts == [AdvanceOne(g, x).burst];
    hide ExecuteBeat, FabricOk;
  }

  /* ---------- what the bank does ---------- */

  lemma Shapes()
    ensures BankShape(FRESH) && BankShape(FILLING) && BankShape(FILLED) && BankShape(STORED) && BankShape(EVICTING) && BankShape(DROPPED)
    ensures Lookup(FRESH, 0) == None && Lookup(FILLED, 0) == Some(0) && Lookup(STORED, 4) == None && Lookup(STORED, 0) == Some(0)
    ensures Lookup(DROPPED, 0) == None
  {
    hide LineBase, SetOf, TagOf, BaseFor;
    Decodes(0);
    Decodes(1);
  }

  lemma StartsFilling()
    ensures BankShape(FRESH) && StartPending(FRESH, 0, LoadAccess) == FILLING
  {
    hide LineBase, SetOf, TagOf, BaseFor;
    Decodes(0);
    Decodes(1);
    Shapes();
    SelectsOnly(FRESH);
    var line := StartPending(FRESH, 0, LoadAccess).sets[0].lines;
    assert line == [EMPTY];
  }

  /** There is only one way to choose. */
  lemma SelectsOnly(b: Bank)
    requires BankShape(b) && b.config == SMALL
    ensures SelectVictim(b, 0) == Choice(b, 0)
  {
  }

  lemma StartsEvicting()
    ensures BankShape(STORED) && StartPending(STORED, 4, LoadAccess) == EVICTING
  {
    hide LineBase, SetOf, TagOf, BaseFor;
    Decodes(0);
    Decodes(1);
    Shapes();
    SelectsOnly(STORED);
    var line := StartPending(STORED, 4, LoadAccess).sets[0].lines;
    assert line == [CacheLine(false, false, 0, [ONE], 2)];
  }

  lemma Fills(writable: bool)
    ensures BankShape(FRESH) && FabricOk(Device(writable, 0))
    ensures Refilled(FRESH, Device(writable, 0), 0, LoadAccess) == Access(FILLED, Device(writable, 1), Got(0))
  {
    StartsFilling();
    Shapes();
    ReadsZero(writable, 0);
    FillsLine(writable);
    hide DriveBurst, StartPending, Device, BankShape, Lookup, ContinueRefill, FabricOk, FRESH, FILLED;
  }

  lemma PutsLine(old_: CacheLine, line: CacheLine, pending: Option<PendingLine>, epoch: nat)
    requires |old_.words| == |line.words| == 1 && BankShape(BankWith(old_, pending, epoch))
    ensures WithLine(BankWith(old_, pending, epoch), 0, 0, line) == BankWith(line, pending, epoch)
  {
    hide BankShape;
    assert [old_][0 := line] == [line];
  }

  lemma TouchesLine(line: CacheLine, epoch: nat)
    requires |line.words| == 1 && BankShape(BankWith(line, None, epoch))
    ensures Touch(BankWith(line, None, epoch), 0, 0) == BankWith(line.(lastUsed := epoch + 1), None, epoch + 1)
  {
    hide BankShape;
    PutsLine(line, line.(lastUsed := epoch + 1), None, epoch);
  }

  lemma Installs()
    ensures BankShape(FRESH)
    ensures Install(FRESH, PendingRefill(0, 0, 0, 0, LoadAccess, None), [ZERO_WORD]) == FILLED
  {
    Shapes();
    var line := CacheLine(true, false, 0, [ZERO_WORD], 0);
    PutsLine(EMPTY, line, None, 0);
    assert BankShape(BankWith(line, None, 0));
    TouchesLine(line, 0);
    hide WithLine, Touch, BankShape;
  }

  const REFILL: PendingRefill := PendingRefill(0, 0, 0, 0, LoadAccess, None)

  lemma RefillAtOnce(b: Bank, f: Fabric, refill: PendingRefill, g: Fabric, words: seq<Word4>)
    requires BankShape(b) && b.pending.None? && PendingShape(b.config, PendingLine(None, refill)) && FabricOk(f)
    requires refill.burst.None? && |words| == b.config.words
    requires DriveBurst(f, None, ReadWords(refill.base, b.config.words, refill.kind)) == Driven(g, None, Finished(WordsRead(words)))
    ensures ContinueRefill(b, f, refill) == Access(Install(b, refill, words), g, Got(()))
  {
    hide DriveBurst, Install, FabricOk, BankShape;
  }

  lemma RefillFacts()
    ensures FRESH.config == SMALL && FRESH.pending.None? && SMALL.words == 1 && PendingShape(SMALL, PendingLine(None, REFILL))
    ensures REFILL.base == 0 && REFILL.kind == LoadAccess && REFILL.burst.None? && |[ZERO_WORD]| == 1
    ensures PendingRefill(0, 0, 0, 0, LoadAccess, None) == REFILL
  {
  }

  lemma RefillsLine(writable: bool)
    ensures BankShape(FRESH) && FabricOk(Device(writable, 0)) && PendingShape(SMALL, PendingLine(None, REFILL))
    ensures ContinueRefill(FRESH, Device(writable, 0), REFILL) == Access(FILLED, Device(writable, 1), Got(()))
  {
    hide DriveBurst, Device, FabricOk, Install, BankShape, ContinueRefill, PendingShape, FRESH, FILLED, SMALL, REFILL;
    Shapes();
    Installs();
    RefillFacts();
    ReadsZero(writable, 0);
    RefillAtOnce(FRESH, Device(writable, 0), REFILL, Device(writable, 1), [ZERO_WORD]);
  }

  lemma FillsLine(writable: bool)
    ensures BankShape(FILLING) && FabricOk(Device(writable, 0)) && BurstsActive(FILLING, Device(writable, 0))
    ensures ContinuePending(FILLING, Device(writable, 0)) == Access(FILLED, Device(writable, 1), Got(()))
  {
    hide ContinueRefill, Device, FabricOk, BankShape, FILLED;
    Shapes();
    RefillsLine(writable);
    assert FILLING.(pending := None) == FRESH && FILLING.pending == Some(PendingLine(None, REFILL));
  }

  /* ---------- a store ---------- */

  const STORE_ONE: StoreOp := StoreOp(0, 1, ONE)

  lemma SmallCaches()
    ensures CachesAddress(SMALL, 0) && CachesLine(SMALL, 0)
  {
    assert SMALL.ranges[0] == Range(0, 8);
  }

  lemma SmallFits()
    ensures SMALL.Ok() && Cacheable(SMALL, 0) && Fits(SMALL, STORE_ONE) && WordIndex(SMALL, 0) == 0
  {
    hide LineBase, CachesAddress, CachesLine, SetOf, TagOf;
    DecodesZero();
    SmallCaches();
  }

  lemma PatchesOne()
    ensures Patch(ZERO_WORD, 0, ONE, 0, 1) == ONE
  {
    assert Patch(ZERO_WORD.With(0, 1), 0, ONE, 1, 1) == ONE;
  }

  lemma Applies()
    ensures Fits(SMALL, STORE_ONE) && Applied(SMALL, [ZERO_WORD], STORE_ONE) == [ONE]
  {
    hide LineBase, WordIndex, Fits, Patch, SetOf, TagOf;
    SmallFits();
    DecodesZero();
    PatchesOne();
  }

  lemma UpdateIs(b: Bank, op: StoreOp, old_: CacheLine, words: seq<Word4>)
    requires b == BankWith(old_, None, 1) && |old_.words| == |words| == 1 && BankShape(b) && Fits(SMALL, op)
    requires SetOf(SMALL, op.addr) == 0 && TagOf(SMALL, op.addr) == old_.tag && Applied(SMALL, old_.words, op) == words
    ensures UpdateLine(b, op, 0, true) == BankWith(CacheLine(true, true, old_.tag, words, 2), None, 2)
  {
    hide TagOf, SetOf, Applied, Fits, BankShape, WithLine, Touch;
    var line := CacheLine(true, true, old_.tag, words, old_.lastUsed);
    PutsLine(old_, line, None, 1);
    LineShapes(line, 1);
    TouchesLine(line, 1);
  }

  lemma Updates()
    ensures BankShape(FILLED) && Fits(SMALL, STORE_ONE) && UpdateLine(FILLED, STORE_ONE, 0, true) == STORED
  {
    hide LineBase, TagOf, SetOf, Applied, Fits, BankShape, UpdateLine;
    Shapes();
    DecodesZero();
    Applies();
    UpdateIs(FILLED, STORE_ONE, CacheLine(true, false, 0, [ZERO_WORD], 1), [ONE]);
  }

  lemma LineShapes(line: CacheLine, epoch: nat)
    requires |line.words| == 1
    ensures BankShape(BankWith(line, None, epoch))
  {
  }

  /** A byte is stored in a line just read. */
  lemma Stores(writable: bool)
    ensures BankShape(FRESH) && FabricOk(Device(writable, 0)) && BurstsActive(FRESH, Device(writable, 0)) && Fits(SMALL, STORE_ONE)
    ensures StoreLine(FRESH, Device(writable, 0), STORE_ONE, false) == Access(STORED, Device(writable, 1), Got(()))
  {
    hide Device, FabricOk, BankShape, Refilled, UpdateLine, Lookup, Cacheable, Fits, FRESH, FILLED, STORED, SMALL;
    Shapes();
    Fills(writable);
    SmallFits();
    Updates();
    StoreFacts();
  }

  lemma StoreFacts()
    ensures FRESH.config == SMALL && FILLED.config == SMALL && FRESH.pending.None? && SMALL.writeBack && SMALL.writeAllocate
  {
  }

  /* ---------- a load that needs the line ---------- */

  lemma EvictFacts()
    ensures EVICTING.pending.Some? && EVICTING.pending.value.writeBack == Some(PendingWriteBack(0, [ONE], None))
    ensures EVICTING.(pending := None) == DROPPED && STORED.config == SMALL && STORED.pending.None?
    ensures EVICTING.pending.value.refill.burst.None?
  {
  }

  lemma Drops(b: Bank, f: Fabric, room: Room, d: Driven)
    requires BankShape(b) && FabricOk(f) && BurstsActive(b, f) && b.pending.Some? && b.pending.value.writeBack.Some?
    requires var wb := b.pending.value.writeBack.value; DriveBurst(f, wb.burst, WriteWords(wb.base, wb.words), room.toWrite) == d
    requires d.outcome.TurnedAway? || d.outcome.Broken?
    ensures ContinuePending(b, f, room)
         == Access(b.(pending := None), d.fabric, if d.outcome.TurnedAway? then Busy else Failure(d.outcome.error))
  {
    hide DriveBurst, ContinueRefill, FabricOk;
  }

  lemma TurnedAwayDrops(f: Fabric)
    requires FabricOk(f)
    ensures BankShape(EVICTING) && BurstsActive(EVICTING, f)
    ensures ContinuePending(EVICTING, f, Room(false, true)) == Access(DROPPED, f, Busy)
  {
    hide FabricOk, BankShape, ContinueRefill, SubmitBurst, ContinuePending, EVICTING, DROPPED;
    Shapes();
    EvictFacts();
    Drops(EVICTING, f, Room(false, true), Driven(f, None, TurnedAway));
  }

  lemma FailureDrops()
    ensures BankShape(EVICTING) && FabricOk(Device(false, 1)) && BurstsActive(EVICTING, Device(false, 1))
    ensures ContinuePending(EVICTING, Device(false, 1)) == Access(DROPPED, Device(false, 2), Failure(ReadOnlyAt(0)))
  {
    hide FabricOk, BankShape, ContinueRefill, DriveBurst, ContinuePending, Device, EVICTING, DROPPED;
    Shapes();
    EvictFacts();
    WriteFails(1);
    Drops(EVICTING, Device(false, 1), ROOM, Driven(Device(false, 2), None, Broken(ReadOnlyAt(0))));
  }

  lemma Loads(f: Fabric, room: Room, g: Fabric, reply: Reply<()>)
    requires BankShape(EVICTING) && FabricOk(f) && BurstsActive(EVICTING, f) && !reply.Got?
    requires ContinuePending(EVICTING, f, room) == Access(DROPPED, g, reply)
    ensures BankShape(STORED) && BurstsActive(STORED, f)
    ensures LoadLine(STORED, f, 4, LoadAccess, room)
         == Access(DROPPED, g, if reply.Busy? then Busy else Failure(reply.error))
  {
    hide FabricOk, BankShape, ContinueRefill, DriveBurst, Lookup, StartPending, EVICTING, DROPPED, STORED;
    Shapes();
    EvictFacts();
    StartsEvicting();
  }

  lemma HitByte(b: Bank, f: Fabric)
    requires b == STORED && BankShape(b) && Lookup(b, 0) == Some(0)
    ensures View(b, f, 0) == Some(1)
  {
    hide LineBase, SetOf, TagOf, Lookup;
    DecodesZero();
    assert ByteIn([ONE], 0) == 1;
  }

  lemma MemoryByte(f: Fabric)
    requires f.bytes == ZEROS && BankShape(DROPPED) && Lookup(DROPPED, 0) == None
    ensures View(DROPPED, f, 0) == Some(0)
  {
    hide LineBase, SetOf, TagOf, Lookup, BankShape;
    ViewOfMemory(DROPPED, f, 0);
  }

  lemma Views(f: Fabric)
    requires f.bytes == ZEROS
    ensures BankShape(STORED) && View(STORED, f, 0) == Some(1)
    ensures BankShape(DROPPED) && View(DROPPED, f, 0) == Some(0)
  {
    hide View, BankShape, Lookup, STORED, DROPPED, ZEROS;
    Shapes();
    HitByte(STORED, f);
    MemoryByte(f);
  }

  /** A new bank over a read-only device: a byte is stored and reads back; the load that
      needs the line fails, and the byte reads as 0 again. */
  lemma LostToReadOnly()
    ensures SMALL.Ok() && FabricOk(Device(false, 0)) && BurstsActive(FreshBank(SMALL), Device(false, 0)) && Fits(SMALL, STORE_ONE)
    ensures var a := StoreLine(FreshBank(SMALL), Device(false, 0), STORE_ONE, false);
            a.reply.Got? && View(a.bank, a.fabric, 0) == Some(1) && FabricOk(a.fabric) && BurstsActive(a.bank, a.fabric) &&
            var z := LoadLine(a.bank, a.fabric, 4, LoadAccess);
            z.reply == Failure(ReadOnlyAt(0)) && View(z.bank, z.fabric, 0) == Some(0)
  {
    hide Device, FabricOk, BankShape, StoreLine, LoadLine, View, Fits, ContinuePending, FreshBank, EVICTING, DROPPED, STORED, FRESH;
    FreshIsFresh();
    Stores(false);
    FailureDrops();
    Loads(Device(false, 1), ROOM, Device(false, 2), Failure(ReadOnlyAt(0)));
    DeviceBytes(false, 1);
    DeviceBytes(false, 2);
    Views(Device(false, 1));
    Views(Device(false, 2));
  }

  /** The same over a device that takes writes, when the lower bus has no room as the victim
      is to go back: the load is only told to wait, and the byte is gone. */
  lemma LostToNoRoom()
    ensures SMALL.Ok() && FabricOk(Device(true, 0)) && BurstsActive(FreshBank(SMALL), Device(true, 0)) && Fits(SMALL, STORE_ONE)
    ensures var a := StoreLine(FreshBank(SMALL), Device(true, 0), STORE_ONE, false);
            a.reply.Got? && View(a.bank, a.fabric, 0) == Some(1) && FabricOk(a.fabric) && BurstsActive(a.bank, a.fabric) &&
            var z := LoadLine(a.bank, a.fabric, 4, LoadAccess, Room(false, true));
            z.reply.Busy? && View(z.bank, z.fabric, 0) == Some(0)
  {
    hide Device, FabricOk, BankShape, StoreLine, LoadLine, View, Fits, ContinuePending, FreshBank, EVICTING, DROPPED, STORED, FRESH;
    FreshIsFresh();
    Stores(true);
    DeviceBytes(true, 1);
    TurnedAwayDrops(Device(true, 1));
    Loads(Device(true, 1), Room(false, true), Device(true, 1), Busy);
    Views(Device(true, 1));
  }

  lemma DeviceBytes(writable: bool, next: nat)
    ensures Device(writable, next).bytes == ZEROS && FabricOk(Device(writable, next))
  {
    DeviceOk(writable, next);
  }
}
