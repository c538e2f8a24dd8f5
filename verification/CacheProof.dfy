/** A cache bank shows its user plain memory: valid lines, else the words of a victim on
    their way back, else what the bus below holds. */
module CacheProof {
  import opened Wrappers
  import opened BusFabric
  import opened CachePort
  import opened Cache

  /* ---------- the view ---------- */

  function ByteIn(words: seq<Word4>, offset: nat): Byte
    requires offset < 4 * |words|
  {
    words[offset / 4].At(offset % 4)
  }

  /** The victim words waiting to go back to the line of this address. */
  predicate Saved(b: Bank, addr: nat)
    requires BankShape(b)
  {
    b.pending.Some? && b.pending.value.writeBack.Some? && b.pending.value.writeBack.value.base == LineBase(b.config, addr)
  }

  function View(b: Bank, f: Fabric, addr: nat): Option<Byte>
    requires BankShape(b)
  {
    var c, hit, offset := b.config, Lookup(b, addr), addr - LineBase(b.config, addr);
    if hit.Some? then Some(ByteIn(LineAt(b, SetOf(c, addr), hit.value).words, offset))
    else if Saved(b, addr) then Some(ByteIn(b.pending.value.writeBack.value.words, offset))
    else if addr in f.bytes then Some(f.bytes[addr])
    else None
  }

  /* ---------- the invariant ---------- */

  /** At most one valid line of a set has a given tag. */
  ghost predicate UniqueTags(b: Bank)
    requires BankShape(b)
  {
    forall s, v, w | 0 <= s < b.config.sets && 0 <= v < b.config.ways && 0 <= w < b.config.ways &&
      LineAt(b, s, v).valid && LineAt(b, s, w).valid && LineAt(b, s, v).tag == LineAt(b, s, w).tag :: v == w
  }

  predicate Held(c: Config, f: Fabric, set_: nat, line: CacheLine)
    requires c.Ok()
  {
    Holds(f.bytes, BaseFor(c, set_, line.tag), line.words, |line.words|)
  }

  /** Valid lines are of cached addresses; those that are clean equal memory. */
  ghost predicate LinesMatch(b: Bank, f: Fabric)
    requires BankShape(b)
  {
    forall s, w | 0 <= s < b.config.sets && 0 <= w < b.config.ways && LineAt(b, s, w).valid ::
      CachesLine(b.config, BaseFor(b.config, s, LineAt(b, s, w).tag)) &&
      (!LineAt(b, s, w).dirty ==> Held(b.config, f, s, LineAt(b, s, w))) &&
      (LineAt(b, s, w).dirty ==> b.config.writeBack)
  }

  /** The bank's burst in the fabric. */
  function MineOf(b: Bank): Mine {
    if b.pending.None? then NoBurst
    else
      var p := b.pending.value;
      if p.writeBack.Some? then
        (if p.writeBack.value.burst.Some?
         then Writing(p.writeBack.value.burst.value, p.writeBack.value.base, p.writeBack.value.words) else NoBurst)
      else if p.refill.burst.Some? then Reading(p.refill.burst.value, p.refill.base, b.config.words, p.refill.kind)
      else NoBurst
  }

  ghost predicate PendingMatches(b: Bank)
    requires BankShape(b)
  {
    b.pending.Some? ==>
      var p, c := b.pending.value, b.config;
      p.refill.base == BaseFor(c, p.refill.set_, p.refill.tag) && CachesLine(c, p.refill.base) &&
      !LineAt(b, p.refill.set_, p.refill.way).valid && Lookup(b, p.refill.base).None? &&
      (p.writeBack.Some? ==>
         var base := p.writeBack.value.base;
         LineBase(c, base) == base && CachesLine(c, base) && Lookup(b, base).None? && base != p.refill.base)
  }

  /** The lower bus maps every line the bank may hold to one device. */
  ghost predicate Readable(c: Config, f: Fabric)
    requires c.Ok()
  {
    forall base: nat | LineBase(c, base) == base && CachesLine(c, base) :: LineMapped(f, base, c.words)
  }

  /** Every such line can be written as well. */
  ghost predicate Mapped(c: Config, f: Fabric)
    requires c.Ok()
  {
    Readable(c, f) && forall base: nat | LineBase(c, base) == base && CachesLine(c, base) :: LineWritable(f, base)
  }

  /** What holds of a bank whatever devices its lines are in. */
  ghost predicate BankSound(b: Bank, f: Fabric) {
    BankShape(b) && UniqueTags(b) && LinesMatch(b, f) && PendingMatches(b) && Readable(b.config, f) && Serves(f, MineOf(b))
  }

  ghost predicate BankOk(b: Bank, f: Fabric) {
    BankShape(b) && UniqueTags(b) && LinesMatch(b, f) && PendingMatches(b) && Mapped(b.config, f) && Serves(f, MineOf(b))
  }

  /** A bank in order is one whose lines can all be written. */
  lemma OkIsSound(b: Bank, f: Fabric)
    ensures BankOk(b, f) <==> BankSound(b, f) && Mapped(b.config, f)
  {
    hide Serves, Readable, LinesMatch, UniqueTags, PendingMatches;
  }

  /* ---------- lookups ---------- */

  predicate HitAt(b: Bank, addr: nat, way: nat)
    requires BankShape(b)
  {
    way < b.config.ways && LineAt(b, SetOf(b.config, addr), way).valid &&
    LineAt(b, SetOf(b.config, addr), way).tag == TagOf(b.config, addr)
  }

  lemma LookupIs(b: Bank, addr: nat, way: nat)
    requires BankShape(b) && UniqueTags(b) && HitAt(b, addr, way)
    ensures Lookup(b, addr) == Some(way)
  {
    var hit := Lookup(b, addr);
    assert HitAt(b, addr, hit.value);
  }

  lemma LookupHits(b: Bank, addr: nat)
    requires BankShape(b)
    ensures Lookup(b, addr).Some? ==> HitAt(b, addr, Lookup(b, addr).value)
    ensures Lookup(b, addr).None? ==> forall w | 0 <= w < b.config.ways :: !HitAt(b, addr, w)
  {
  }

  /** Addresses of one line are looked up alike. */
  lemma LookupByLine(b: Bank, addr: nat, other: nat)
    requires BankShape(b) && LineBase(b.config, addr) == LineBase(b.config, other)
    ensures Lookup(b, addr) == Lookup(b, other)
  {
    BaseDecodes(b.config, addr);
    BaseDecodes(b.config, other);
    hide Quotient, Remainder, LineNumber;
  }

  /** A line but for when it was used. */
  function Ageless(l: CacheLine): CacheLine { l.(lastUsed := 0) }

  /** Changing a line changes lookups only of the addresses it had or has. */
  lemma LookupElsewhere(b: Bank, r: Bank, set_: nat, way: nat, addr: nat)
    requires BankShape(b) && BankShape(r) && b.config == r.config && UniqueTags(b) && UniqueTags(r)
    requires set_ < b.config.sets && way < b.config.ways
    requires forall s, w | 0 <= s < b.config.sets && 0 <= w < b.config.ways && !(s == set_ && w == way) ::
      Ageless(LineAt(r, s, w)) == Ageless(LineAt(b, s, w))
    requires !HitAt(b, addr, way) || SetOf(b.config, addr) != set_
    requires !HitAt(r, addr, way) || SetOf(b.config, addr) != set_
    ensures Lookup(r, addr) == Lookup(b, addr)
    ensures Lookup(b, addr).Some? ==>
      LineAt(r, SetOf(b.config, addr), Lookup(b, addr).value).words == LineAt(b, SetOf(b.config, addr), Lookup(b, addr).value).words
  {
    LookupHits(b, addr);
    LookupHits(r, addr);
    hide Lookup, SetOf, TagOf;
    var set1 := SetOf(b.config, addr);
    if Lookup(b, addr).Some? {
      var w := Lookup(b, addr).value;
      assert Ageless(LineAt(r, set1, w)) == Ageless(LineAt(b, set1, w));
      LookupIs(r, addr, w);
    } else {
      forall w | 0 <= w < b.config.ways ensures !HitAt(r, addr, w) {
        if !(set1 == set_ && w == way) { assert Ageless(LineAt(r, set1, w)) == Ageless(LineAt(b, set1, w)); }
      }
    }
  }

  /* ---------- memory and lines ---------- */

  lemma HeldByte(bytes: Bytes, base: nat, words: seq<Word4>, offset: nat)
    requires Holds(bytes, base, words, |words|) && offset < 4 * |words|
    ensures base + offset in bytes && bytes[base + offset] == ByteIn(words, offset)
  {
    var k := offset / 4;
    assert WordAt(bytes, base + 4 * k) == Some(words[k]);
  }

  lemma HoldsElsewhere(before: Bytes, after: Bytes, base: nat, length: nat, other: nat, words: seq<Word4>)
    requires SameOutside(before, after, base, length) && (other + 4 * |words| <= base || base + length <= other)
    requires Holds(before, other, words, |words|)
    ensures Holds(after, other, words, |words|)
  {
    forall k | 0 <= k < |words| ensures WordAt(after, other + 4 * k) == Some(words[k]) {
      assert WordAt(before, other + 4 * k) == Some(words[k]);
    }
  }

  /** The lines of two different bases do not overlap. */
  lemma LinesApart(c: Config, base: nat, other: nat)
    requires c.Ok() && LineBase(c, base) == base && LineBase(c, other) == other && base != other
    ensures base + c.LineSize() <= other || other + c.LineSize() <= base
  {
    SameLine(c, base, other);
    SameLine(c, other, base);
  }

  /* ---------- the parts of the view ---------- */

  /** An address with no valid line and no saved victim is read from memory. */
  lemma ViewOfMemory(b: Bank, f: Fabric, addr: nat)
    requires BankShape(b) && Lookup(b, addr).None? && !Saved(b, addr)
    ensures View(b, f, addr) == if addr in f.bytes then Some(f.bytes[addr]) else None
  {
  }

  /** A clean valid line may be dropped: memory holds the same bytes. */
  lemma CleanLineIsMemory(b: Bank, f: Fabric, addr: nat, way: nat)
    requires BankShape(b) && LinesMatch(b, f) && HitAt(b, addr, way) && !LineAt(b, SetOf(b.config, addr), way).dirty
    ensures addr in f.bytes &&
            f.bytes[addr] == ByteIn(LineAt(b, SetOf(b.config, addr), way).words, addr - LineBase(b.config, addr))
  {
    var line := LineAt(b, SetOf(b.config, addr), way);
    DecodeRoundTrip(b.config, addr);
    HeldByte(f.bytes, LineBase(b.config, addr), line.words, addr - LineBase(b.config, addr));
    hide Holds, ByteIn;
  }

  /* ---------- starting a refill ---------- */

  lemma SameCacheLines(b: Bank, addr: nat, kind: AccessKind)
    requires BankShape(b) && b.pending.None?
    ensures var r, set_ := StartPending(b, addr, kind), SetOf(b.config, addr);
            var way := r.pending.value.refill.way;
            way == SelectVictim(b, set_).way && !LineAt(r, set_, way).valid &&
            forall s, w | 0 <= s < b.config.sets && 0 <= w < b.config.ways && !(s == set_ && w == way) ::
              LineAt(r, s, w) == LineAt(b, s, w)
  {
    hide FirstInvalid, LeastRecent;
  }

  lemma StartPendingShape(b: Bank, addr: nat, kind: AccessKind)
    requires BankShape(b) && b.pending.None?
    ensures var r, set_ := StartPending(b, addr, kind), SetOf(b.config, addr);
            var line := LineAt(b, set_, r.pending.value.refill.way);
            r.pending.value.refill ==
              PendingRefill(LineBase(b.config, addr), set_, TagOf(b.config, addr), r.pending.value.refill.way, kind, None) &&
            r.pending.value.writeBack ==
              (if b.config.writeBack && line.valid && line.dirty
               then Some(PendingWriteBack(BaseFor(b.config, set_, line.tag), line.words, None)) else None)
  {
    hide FirstInvalid, LeastRecent;
  }

  lemma StartKeepsSound(b: Bank, f: Fabric, addr: nat, kind: AccessKind)
    requires BankSound(b, f) && b.pending.None? && Lookup(b, addr).None? && CachesLine(b.config, LineBase(b.config, addr))
    ensures BankSound(StartPending(b, addr, kind), f)
  {
    var c, r, set_ := b.config, StartPending(b, addr, kind), SetOf(b.config, addr);
    SameCacheLines(b, addr, kind);
    StartPendingShape(b, addr, kind);
    DecodeRoundTrip(c, addr);
    BaseDecodes(c, addr);
    hide StartPending, Quotient, Remainder, LineNumber, LineBase, SetOf, TagOf, BaseFor, Serves, Readable, Holds, CachesLine;
    var way := r.pending.value.refill.way;
    var line := LineAt(b, set_, way);
    NoLineAfterStart(b, r, set_, way, r.pending.value.refill.base);
    LookupByLine(b, addr, r.pending.value.refill.base);
    if r.pending.value.writeBack.Some? {
      EncodeRoundTrip(c, set_, line.tag);
      NoLineLeft(b, r, set_, way, BaseFor(c, set_, line.tag));
      if BaseFor(c, set_, line.tag) == LineBase(c, addr) {
        LookupIs(b, addr, way);
        assert false;
      }
    }
  }

  lemma StartKeepsOk(b: Bank, f: Fabric, addr: nat, kind: AccessKind)
    requires BankOk(b, f) && b.pending.None? && Lookup(b, addr).None? && CachesLine(b.config, LineBase(b.config, addr))
    ensures BankOk(StartPending(b, addr, kind), f)
  {
    hide BankOk, BankSound, StartPending, Lookup, CachesLine, LineBase, Mapped, BankShape;
    OkIsSound(b, f);
    SoundMatches(b, f);
    StartKeepsSound(b, f, addr, kind);
    OkIsSound(StartPending(b, addr, kind), f);
  }

  /** A line that was nowhere is nowhere when another has been invalidated. */
  lemma NoLineAfterStart(b: Bank, r: Bank, set_: nat, way: nat, addr: nat)
    requires BankShape(b) && BankShape(r) && b.config == r.config && set_ < b.config.sets && way < b.config.ways
    requires Lookup(b, addr).None? && !LineAt(r, set_, way).valid
    requires forall s, w | 0 <= s < b.config.sets && 0 <= w < b.config.ways && !(s == set_ && w == way) ::
      LineAt(r, s, w) == LineAt(b, s, w)
    ensures Lookup(r, addr).None?
  {
    LookupHits(b, addr);
    LookupHits(r, addr);
    hide Lookup, SetOf, TagOf;
  }

  /** The invalidated line itself is nowhere any more. */
  lemma NoLineLeft(b: Bank, r: Bank, set_: nat, way: nat, addr: nat)
    requires BankShape(b) && BankShape(r) && b.config == r.config && set_ < b.config.sets && way < b.config.ways
    requires UniqueTags(b) && LineAt(b, set_, way).valid && !LineAt(r, set_, way).valid
    requires SetOf(b.config, addr) == set_ && TagOf(b.config, addr) == LineAt(b, set_, way).tag
    requires forall s, w | 0 <= s < b.config.sets && 0 <= w < b.config.ways && !(s == set_ && w == way) ::
      LineAt(r, s, w) == LineAt(b, s, w)
    ensures Lookup(r, addr).None?
  {
    LookupHits(r, addr);
    hide Lookup, SetOf, TagOf;
  }

  /** Evicting a line and starting a refill change nothing that can be read. */
  lemma StartKeepsView(b: Bank, f: Fabric, start: nat, kind: AccessKind, addr: nat)
    requires BankSound(b, f) && b.pending.None? && Lookup(b, start).None? && CachesLine(b.config, LineBase(b.config, start))
    ensures View(StartPending(b, start, kind), f, addr) == View(b, f, addr)
  {
    var c, r, set_ := b.config, StartPending(b, start, kind), SetOf(b.config, start);
    SameCacheLines(b, start, kind);
    StartPendingShape(b, start, kind);
    StartKeepsSound(b, f, start, kind);
    var way := r.pending.value.refill.way;
    var line := LineAt(b, set_, way);
    DecodeRoundTrip(c, addr);
    hide StartPending, Quotient, Remainder, LineNumber, LineBase, SetOf, TagOf, BaseFor, Serves, Readable, Holds, CachesLine,
         ByteIn, PendingMatches, Lookup;
    if SetOf(c, addr) == set_ && HitAt(b, addr, way) {
      LookupIs(b, addr, way);
      NoLineLeft(b, r, set_, way, addr);
      if line.dirty {
        assert Saved(r, addr);
      } else {
        CleanLineIsMemory(b, f, addr, way);
        EncodeRoundTrip(c, set_, line.tag);
      }
    } else {
      LookupElsewhere(b, r, set_, way, addr);
      EncodeRoundTrip(c, set_, line.tag);
      if Saved(r, addr) {
        BaseDecodes(c, addr);
        assert false;
      }
    }
  }

  /* ---------- a refill completes ---------- */

  lemma InstallShape(b: Bank, refill: PendingRefill, words: seq<Word4>)
    requires BankShape(b) && refill.set_ < b.config.sets && refill.way < b.config.ways && |words| == b.config.words
    ensures var r := Install(b, refill, words);
            r.config == b.config && r.pending == b.pending && r.epoch == b.epoch + 1 &&
            LineAt(r, refill.set_, refill.way) == CacheLine(true, false, refill.tag, words, b.epoch + 1) &&
            forall s, w | 0 <= s < b.config.sets && 0 <= w < b.config.ways && !(s == refill.set_ && w == refill.way) ::
              LineAt(r, s, w) == LineAt(b, s, w)
  {
  }

  /** The refilled words are what memory holds, so installing them keeps everything. */
  lemma InstallKeeps(b: Bank, f: Fabric, refill: PendingRefill, words: seq<Word4>, addr: nat)
    requires BankSound(b, f) && b.pending.None? && refill.set_ < b.config.sets && refill.way < b.config.ways
    requires |words| == b.config.words && refill.base == BaseFor(b.config, refill.set_, refill.tag)
    requires !LineAt(b, refill.set_, refill.way).valid && Lookup(b, refill.base).None? && CachesLine(b.config, refill.base)
    requires Holds(f.bytes, refill.base, words, |words|)
    ensures BankSound(Install(b, refill, words), f) && View(Install(b, refill, words), f, addr) == View(b, f, addr)
  {
    hide Install, Quotient, Remainder, LineNumber, LineBase, SetOf, TagOf, BaseFor, Serves, Readable, Holds, CachesLine,
         ByteIn, Lookup;
    var c, r := b.config, Install(b, refill, words);
    InstallShape(b, refill, words);
    EncodeRoundTrip(c, refill.set_, refill.tag);
    DecodeRoundTrip(c, addr);
    LookupHits(b, refill.base);
    assert UniqueTags(r) by {
      forall w | 0 <= w < c.ways && w != refill.way && LineAt(r, refill.set_, w).valid
        ensures LineAt(r, refill.set_, w).tag != refill.tag
      {
        assert !HitAt(b, refill.base, w);
      }
    }
    if SetOf(c, addr) == refill.set_ && TagOf(c, addr) == refill.tag {
      LookupByLine(b, addr, refill.base);
      LookupIs(r, addr, refill.way);
      HeldByte(f.bytes, refill.base, words, addr - LineBase(c, addr));
    } else {
      LookupElsewhere(b, r, refill.set_, refill.way, addr);
    }
  }

  /* ---------- continuing a pending operation ---------- */

  lemma SoundGivesActive(b: Bank, f: Fabric)
    requires BankSound(b, f)
    ensures BankShape(b) && FabricOk(f) && BurstsActive(b, f) && b.config.Ok()
  {
    ServesHasBurst(f, MineOf(b));
    hide Serves, Readable, LinesMatch, UniqueTags, PendingMatches;
  }

  lemma OkGivesActive(b: Bank, f: Fabric)
    requires BankOk(b, f)
    ensures BankShape(b) && FabricOk(f) && BurstsActive(b, f) && b.config.Ok()
  {
    hide BankOk, BankSound, FabricOk, BankShape, BurstsActive;
    OkIsSound(b, f);
    SoundGivesActive(b, f);
  }

  lemma ReadableLine(c: Config, f: Fabric, base: nat)
    requires c.Ok() && Readable(c, f) && LineBase(c, base) == base && CachesLine(c, base)
    ensures LineMapped(f, base, c.words)
  {
  }

  lemma ReadableSame(c: Config, f: Fabric, g: Fabric)
    requires c.Ok() && Readable(c, f) && f.regions == g.regions
    ensures Readable(c, g)
  {
    forall base: nat | LineBase(c, base) == base && CachesLine(c, base) ensures LineMapped(g, base, c.words) {
      ReadableLine(c, f, base);
    }
  }

  lemma MappedLine(c: Config, f: Fabric, base: nat)
    requires c.Ok() && Mapped(c, f) && LineBase(c, base) == base && CachesLine(c, base)
    ensures LineMapped(f, base, c.words) && LineWritable(f, base)
  {
    hide LineMapped, LineWritable;
  }

  lemma MappedSame(c: Config, f: Fabric, g: Fabric)
    requires c.Ok() && Mapped(c, f) && f.regions == g.regions
    ensures Mapped(c, g)
  {
    ReadableSame(c, f, g);
    forall base: nat | LineBase(c, base) == base && CachesLine(c, base) ensures LineWritable(g, base) {
      MappedLine(c, f, base);
    }
  }

  /** The same lines over the same bytes. */
  lemma LinesMatchSame(b: Bank, r: Bank, f: Fabric, g: Fabric)
    requires BankShape(b) && BankShape(r) && LinesMatch(b, f) && r.config == b.config && r.sets == b.sets && f.bytes == g.bytes
    ensures LinesMatch(r, g)
  {
    hide CachesLine;
    assert forall s, w | 0 <= s < b.config.sets && 0 <= w < b.config.ways :: LineAt(r, s, w) == LineAt(b, s, w);
  }

  lemma SameSets(b: Bank, r: Bank)
    requires BankShape(b) && BankShape(r) && r.config == b.config && r.sets == b.sets
    ensures UniqueTags(b) ==> UniqueTags(r)
    ensures forall addr :: Lookup(r, addr) == Lookup(b, addr)
  {
    assert forall s, w | 0 <= s < b.config.sets && 0 <= w < b.config.ways :: LineAt(r, s, w) == LineAt(b, s, w);
  }

  /** The second half: the line is read and installed. A refill turned away is forgotten. */
  lemma RefillKeeps(b: Bank, f: Fabric, room: bool, addr: nat)
    requires BankSound(b, f) && b.pending.Some? && b.pending.value.writeBack.None?
    ensures var refill := b.pending.value.refill;
            var idle := b.(pending := None);
            BankShape(idle) && FabricOk(f) && (refill.burst.Some? ==> BurstIndex(f, refill.burst.value).Some?) &&
            var a := ContinueRefill(idle, f, refill, room);
            BankSound(a.bank, a.fabric) && View(a.bank, a.fabric, addr) == View(b, f, addr) && !a.reply.Failure? &&
            (a.reply.Busy? && room ==> a.bank.pending.Some? && a.bank.pending.value.refill.base == refill.base) &&
            (a.bank.pending.Some? ==> a.bank.pending.value.writeBack.None?) &&
            a.fabric.bytes == f.bytes && a.fabric.regions == f.regions
  {
    hide DriveBurst, Serves, Readable, Quotient, Remainder, LineNumber, LineBase, SetOf, TagOf, BaseFor, CachesLine, Holds,
         Install, ByteIn, LinesMatch, UniqueTags, Lookup, FabricOk, View, SetShape;
    SoundGivesActive(b, f);
    var refill, idle, c := b.pending.value.refill, b.(pending := None), b.config;
    EncodeRoundTrip(c, refill.set_, refill.tag);
    ReadableLine(c, f, refill.base);
    var request := ReadWords(refill.base, c.words, refill.kind);
    DriveBurstServes(f, refill.burst, request);
    DriveWithoutRoom(f, refill.burst, request, room);
    var d := DriveBurst(f, refill.burst, request, room);
    ReadableSame(c, f, d.fabric);
    SameSets(b, idle);
    LinesMatchSame(b, idle, f, d.fabric);
    match d.outcome {
      case Finished(response) =>
        SameViewIdle(b, idle, f, d.fabric, addr);
        InstallKeeps(idle, d.fabric, refill, response.words, addr);
      case Blocked =>
        var r := b.(pending := Some(PendingLine(None, refill.(burst := d.burst))));
        SameSets(b, r);
        LinesMatchSame(b, r, f, d.fabric);
        SameViewIdle(b, r, f, d.fabric, addr);
      case TurnedAway => SameViewIdle(b, idle, f, d.fabric, addr);
    }
  }

  lemma DriveWithoutRoom(f: Fabric, burst: Option<nat>, request: BurstRequest, room: bool)
    requires FabricOk(f) && request.Beats() > 0 && (burst.Some? ==> BurstIndex(f, burst.value).Some?)
    ensures DriveBurst(f, burst, request, room)
         == if burst.None? && !room then Driven(f, None, TurnedAway) else DriveBurst(f, burst, request)
  {
  }

  lemma SameViewIdle(b: Bank, r: Bank, f: Fabric, g: Fabric, addr: nat)
    requires BankShape(b) && BankShape(r) && r.config == b.config && r.sets == b.sets && f.bytes == g.bytes
    requires !Saved(b, addr) && !Saved(r, addr)
    ensures View(r, g, addr) == View(b, f, addr)
  {
  }

  /* ---------- the victim goes back ---------- */

  /** Memory may change under a saved victim: no line that is looked up is affected. */
  lemma UnderSaved(b: Bank, f: Fabric, g: Fabric, addr: nat)
    requires BankShape(b) && UniqueTags(b) && LinesMatch(b, f) && PendingMatches(b)
    requires b.pending.Some? && b.pending.value.writeBack.Some?
    requires SameOutside(f.bytes, g.bytes, b.pending.value.writeBack.value.base, b.config.LineSize())
    ensures LinesMatch(b, g) && View(b, g, addr) == View(b, f, addr)
  {
    var c, wb := b.config, b.pending.value.writeBack.value;
    SameLine(c, wb.base, addr);
    forall s, w | 0 <= s < c.sets && 0 <= w < c.ways && LineAt(b, s, w).valid && !LineAt(b, s, w).dirty
      ensures Held(c, g, s, LineAt(b, s, w))
    {
      var line := LineAt(b, s, w);
      var base := BaseFor(c, s, line.tag);
      EncodeRoundTrip(c, s, line.tag);
      if base == wb.base {
        LookupHits(b, wb.base);
        assert false;
      } else {
        LinesApart(c, base, wb.base);
        HoldsElsewhere(f.bytes, g.bytes, wb.base, c.LineSize(), base, line.words);
      }
    }
    hide Quotient, Remainder, LineNumber, LineBase, SetOf, TagOf, BaseFor, CachesLine, Holds, ByteIn;
  }

  /** When memory has taken the victim's words they are read from there. */
  lemma SavedIsWritten(b: Bank, g: Fabric, addr: nat)
    requires BankShape(b) && UniqueTags(b) && b.pending.Some? && b.pending.value.writeBack.Some?
    requires var wb := b.pending.value.writeBack.value; Holds(g.bytes, wb.base, wb.words, |wb.words|)
    ensures var r := b.(pending := Some(b.pending.value.(writeBack := None)));
            BankShape(r) && View(r, g, addr) == View(b, g, addr)
  {
    var wb, r := b.pending.value.writeBack.value, b.(pending := Some(b.pending.value.(writeBack := None)));
    SameSets(b, r);
    if LineBase(b.config, addr) == wb.base {
      HeldByte(g.bytes, wb.base, wb.words, addr - wb.base);
    }
    hide Holds, ByteIn;
  }

  lemma SavedRange(b: Bank)
    requires BankShape(b) && PendingMatches(b) && b.pending.Some? && b.pending.value.writeBack.Some?
    ensures var wb := b.pending.value.writeBack.value;
            |wb.words| == b.config.words && LineBase(b.config, wb.base) == wb.base && CachesLine(b.config, wb.base)
  {
  }

  lemma SavedStillOk(b: Bank, f: Fabric, g: Fabric, id: nat, addr: nat)
    requires BankSound(b, f) && b.pending.Some? && b.pending.value.writeBack.Some?
    requires LinesMatch(b, g) && Readable(b.config, g)
    requires var wb := b.pending.value.writeBack.value; Serves(g, Writing(id, wb.base, wb.words))
    ensures var p := b.pending.value;
            var r := b.(pending := Some(PendingLine(Some(p.writeBack.value.(burst := Some(id))), p.refill)));
            BankSound(r, g) && View(r, g, addr) == View(b, g, addr)
  {
    var p := b.pending.value;
    var r := b.(pending := Some(PendingLine(Some(p.writeBack.value.(burst := Some(id))), p.refill)));
    SameSets(b, r);
    LinesMatchSame(b, r, g, g);
    hide Serves, Readable, LinesMatch, UniqueTags, Lookup, LineBase, BaseFor, CachesLine, SetOf, ByteIn;
  }

  lemma SavedIsDone(b: Bank, f: Fabric, g: Fabric, addr: nat)
    requires BankSound(b, f) && b.pending.Some? && b.pending.value.writeBack.Some?
    requires LinesMatch(b, g) && Readable(b.config, g) && Serves(g, NoBurst)
    requires var wb := b.pending.value.writeBack.value; Holds(g.bytes, wb.base, wb.words, |wb.words|)
    ensures var r := b.(pending := Some(PendingLine(None, b.pending.value.refill)));
            BankSound(r, g) && View(r, g, addr) == View(b, g, addr)
  {
    var r := b.(pending := Some(PendingLine(None, b.pending.value.refill)));
    SavedIsWritten(b, g, addr);
    SameSets(b, r);
    LinesMatchSame(b, r, g, g);
    hide Serves, Readable, LinesMatch, UniqueTags, Lookup, LineBase, BaseFor, CachesLine, SetOf, ByteIn, Holds, View;
  }

  /** The victim's device takes writes, and the write-back is on its way or has room. */
  predicate CanGoBack(b: Bank, f: Fabric, room: bool) {
    b.pending.Some? && b.pending.value.writeBack.Some? ==>
      LineWritable(f, b.pending.value.writeBack.value.base) && (b.pending.value.writeBack.value.burst.None? ==> room)
  }

  /** Driving the write-back of a victim. */
  lemma WriteBackDrives(b: Bank, f: Fabric, room: bool)
    requires BankSound(b, f) && b.pending.Some? && b.pending.value.writeBack.Some? && CanGoBack(b, f, room)
    ensures FabricOk(f) && BurstsActive(b, f) && BankShape(b)
    ensures var wb := b.pending.value.writeBack.value;
            var request := WriteWords(wb.base, wb.words);
            var d := DriveBurst(f, wb.burst, request, room);
            d == DriveBurst(f, wb.burst, request) && DroveTo(f, request, d) && LinesMatch(b, d.fabric) &&
            Readable(b.config, d.fabric) && |wb.words| == b.config.words
  {
    SoundGivesActive(b, f);
    SavedRange(b);
    var wb := b.pending.value.writeBack.value;
    ReadableLine(b.config, f, wb.base);
    var request := WriteWords(wb.base, wb.words);
    DriveBurstServes(f, wb.burst, request);
    var d := DriveBurst(f, wb.burst, request);
    assert d == DriveBurst(f, wb.burst, request, room);
    UnderSaved(b, f, d.fabric, 0);
    ReadableSame(b.config, f, d.fabric);
    hide DriveBurst, Serves, Readable, LinesMatch, UniqueTags, Lookup, Holds, View, LineBase, BaseFor, CachesLine;
  }

  /** What `continue_pending` leaves of a bank. */
  ghost predicate Continued(b: Bank, f: Fabric, room: Room, a: Access<()>, addr: nat)
    requires BankShape(b)
  {
    BankSound(a.bank, a.fabric) && View(a.bank, a.fabric, addr) == View(b, f, addr) && !a.reply.Failure? &&
    (a.reply.Got? ==> a.bank.pending.None?) && a.fabric.regions == f.regions && a.bank.config == b.config &&
    (a.reply.Busy? && room == ROOM ==> b.pending.Some? && a.bank.pending.Some? &&
                                       a.bank.pending.value.refill.base == b.pending.value.refill.base) &&
    (a.bank.pending.Some? && a.bank.pending.value.writeBack.Some? ==>
       a.bank.pending.value.writeBack.value.burst.Some? && b.pending.Some? && b.pending.value.writeBack.Some? &&
       a.bank.pending.value.writeBack.value.base == b.pending.value.writeBack.value.base)
  }

  lemma WriteBackKeeps(b: Bank, f: Fabric, room: Room, addr: nat)
    requires BankSound(b, f) && b.pending.Some? && b.pending.value.writeBack.Some? && CanGoBack(b, f, room.toWrite)
    ensures FabricOk(f) && BurstsActive(b, f) && BankShape(b)
    ensures Continued(b, f, room, ContinuePending(b, f, room), addr)
  {
    hide BankSound, View, DriveBurst, Serves, Readable, LinesMatch, Holds, ContinueRefill, LineBase, Lookup, SetOf;
    WriteBackDrives(b, f, room.toWrite);
    var wb := b.pending.value.writeBack.value;
    var d := DriveBurst(f, wb.burst, WriteWords(wb.base, wb.words), room.toWrite);
    SoundMatches(b, f);
    UnderSaved(b, f, d.fabric, addr);
    match d.outcome {
      case Blocked => SavedStillOk(b, f, d.fabric, d.burst.value, addr);
      case Finished(_) =>
        SavedIsDone(b, f, d.fabric, addr);
        RefillKeeps(b.(pending := Some(PendingLine(None, b.pending.value.refill))), d.fabric, room.toRead, addr);
    }
  }

  lemma SoundMatches(b: Bank, f: Fabric)
    requires BankSound(b, f)
    ensures BankShape(b) && UniqueTags(b) && LinesMatch(b, f) && PendingMatches(b)
  {
  }

  /** Over devices of any kind: while the victim can go back, `continue_pending` keeps what
      can be read. */
  lemma ContinueShows(b: Bank, f: Fabric, room: Room, addr: nat)
    requires BankSound(b, f) && CanGoBack(b, f, room.toWrite)
    ensures FabricOk(f) && BurstsActive(b, f) && BankShape(b)
    ensures Continued(b, f, room, ContinuePending(b, f, room), addr)
  {
    SoundGivesActive(b, f);
    if b.pending.Some? && b.pending.value.writeBack.None? {
      RefillKeeps(b, f, room.toRead, addr);
      hide BankSound, View, ContinueRefill;
    } else if b.pending.Some? {
      WriteBackKeeps(b, f, room, addr);
    }
  }

  lemma OkGoesBack(b: Bank, f: Fabric)
    requires BankOk(b, f)
    ensures CanGoBack(b, f, true)
  {
    hide Serves, LinesMatch, UniqueTags, Lookup;
    if b.pending.Some? && b.pending.value.writeBack.Some? { MappedLine(b.config, f, b.pending.value.writeBack.value.base); }
  }

  /** `continue_pending` keeps the bank in order and its view as it was, and can only be
      done or busy. */
  lemma ContinueKeeps(b: Bank, f: Fabric, addr: nat)
    requires BankOk(b, f)
    ensures FabricOk(f) && BurstsActive(b, f)
    ensures var a := ContinuePending(b, f);
            BankOk(a.bank, a.fabric) && View(a.bank, a.fabric, addr) == View(b, f, addr) && !a.reply.Failure? &&
            (a.reply.Got? ==> a.bank.pending.None?) && a.fabric.regions == f.regions &&
            (a.reply.Busy? ==> b.pending.Some? && a.bank.pending.Some? &&
                               a.bank.pending.value.refill.base == b.pending.value.refill.base)
  {
    hide BankOk, BankSound, View, ContinuePending, Mapped, CanGoBack;
    OkIsSound(b, f);
    OkGoesBack(b, f);
    ContinueShows(b, f, ROOM, addr);
    var a := ContinuePending(b, f);
    MappedSame(b.config, f, a.fabric);
    OkIsSound(a.bank, a.fabric);
  }

  /* ---------- ticks ---------- */

  lemma TickShows(b: Bank, f: Fabric, addr: nat)
    requires BankSound(b, f)
    ensures BankSound(b, Tick(f)) && View(b, Tick(f), addr) == View(b, f, addr) && Tick(f).regions == f.regions
  {
    var g := Tick(f);
    TickServes(f, MineOf(b));
    ReadableSame(b.config, f, g);
    if MineOf(b).Writing? {
      SavedRange(b);
      UnderSaved(b, f, g, addr);
    } else {
      LinesMatchSame(b, b, f, g);
    }
    hide Tick, Serves, Readable, LinesMatch, UniqueTags, PendingMatches, Holds, ByteIn, CachesLine;
  }

  /** A tick of the fabric moves the bank's burst on behind an unchanged view. */
  lemma TickKeeps(b: Bank, f: Fabric, addr: nat)
    requires BankOk(b, f)
    ensures BankOk(b, Tick(f)) && View(b, Tick(f), addr) == View(b, f, addr) && Tick(f).regions == f.regions
  {
    hide BankOk, BankSound, View, Tick, Mapped, FabricOk;
    OkGivesActive(b, f);
    OkIsSound(b, f);
    TickShows(b, f, addr);
    MappedSame(b.config, f, Tick(f));
    OkIsSound(b, Tick(f));
  }

  /* ---------- using a line ---------- */

  lemma TouchShape(b: Bank, set_: nat, way: nat)
    requires BankShape(b) && set_ < b.config.sets && way < b.config.ways
    ensures var r := Touch(b, set_, way);
            r.config == b.config && r.pending == b.pending &&
            forall s, w | 0 <= s < b.config.sets && 0 <= w < b.config.ways :: Ageless(LineAt(r, s, w)) == Ageless(LineAt(b, s, w))
  {
  }

  /** Banks that differ only in when lines were used look the same. */
  lemma AgelessKeeps(b: Bank, r: Bank, f: Fabric, addr: nat)
    requires BankOk(b, f) && BankShape(r) && r.config == b.config && r.pending == b.pending
    requires forall s, w | 0 <= s < b.config.sets && 0 <= w < b.config.ways ::
      Ageless(LineAt(r, s, w)) == Ageless(LineAt(b, s, w))
    ensures BankOk(r, f) && View(r, f, addr) == View(b, f, addr) && Lookup(r, addr) == Lookup(b, addr)
  {
    AgelessLookup(b, r, addr);
    if b.pending.Some? {
      var p := b.pending.value;
      assert Ageless(LineAt(r, p.refill.set_, p.refill.way)) == Ageless(LineAt(b, p.refill.set_, p.refill.way));
      AgelessLookup(b, r, p.refill.base);
      if p.writeBack.Some? { AgelessLookup(b, r, p.writeBack.value.base); }
    }
    var hit := Lookup(b, addr);
    if hit.Some? {
      assert Ageless(LineAt(r, SetOf(b.config, addr), hit.value)) == Ageless(LineAt(b, SetOf(b.config, addr), hit.value));
    }
    assert UniqueTags(r) by { AgelessUnique(b, r); }
    hide Serves, Mapped, Holds, ByteIn, CachesLine, Lookup, UniqueTags, BaseFor, SetOf;
    assert LinesMatch(r, f) by {
      forall s, w | 0 <= s < b.config.sets && 0 <= w < b.config.ways
        ensures Ageless(LineAt(r, s, w)) == Ageless(LineAt(b, s, w))
      {}
    }
  }

  lemma AgelessUnique(b: Bank, r: Bank)
    requires BankShape(b) && BankShape(r) && r.config == b.config && UniqueTags(b)
    requires forall s, w | 0 <= s < b.config.sets && 0 <= w < b.config.ways ::
      Ageless(LineAt(r, s, w)) == Ageless(LineAt(b, s, w))
    ensures UniqueTags(r)
  {
    forall s, v, w | 0 <= s < b.config.sets && 0 <= v < b.config.ways && 0 <= w < b.config.ways &&
      LineAt(r, s, v).valid && LineAt(r, s, w).valid && LineAt(r, s, v).tag == LineAt(r, s, w).tag
      ensures v == w
    {
      assert Ageless(LineAt(r, s, v)) == Ageless(LineAt(b, s, v)) && Ageless(LineAt(r, s, w)) == Ageless(LineAt(b, s, w));
    }
  }

  lemma AgelessLookup(b: Bank, r: Bank, addr: nat)
    requires BankShape(b) && BankShape(r) && r.config == b.config && UniqueTags(b)
    requires forall s, w | 0 <= s < b.config.sets && 0 <= w < b.config.ways ::
      Ageless(LineAt(r, s, w)) == Ageless(LineAt(b, s, w))
    ensures Lookup(r, addr) == Lookup(b, addr)
  {
    AgelessUnique(b, r);
    LookupHits(b, addr);
    LookupHits(r, addr);
    hide Lookup, SetOf, TagOf;
    var set_ := SetOf(b.config, addr);
    forall w | 0 <= w < b.config.ways ensures HitAt(r, addr, w) == HitAt(b, addr, w) {
      assert Ageless(LineAt(r, set_, w)) == Ageless(LineAt(b, set_, w));
    }
    if Lookup(b, addr).Some? { LookupIs(r, addr, Lookup(b, addr).value); }
  }

  lemma TouchKeeps(b: Bank, f: Fabric, set_: nat, way: nat, addr: nat)
    requires BankOk(b, f) && set_ < b.config.sets && way < b.config.ways
    ensures var r := Touch(b, set_, way); BankOk(r, f) && View(r, f, addr) == View(b, f, addr)
  {
    TouchShape(b, set_, way);
    hide Touch, BankOk, View;
    AgelessKeeps(b, Touch(b, set_, way), f, addr);
  }

  /* ---------- finding a line ---------- */

  /** What a call that looks for the line of `start` has done. */
  ghost predicate Keeps<T>(b: Bank, f: Fabric, a: Access<T>, addr: nat)
    requires BankShape(b)
  {
    BankOk(a.bank, a.fabric) && View(a.bank, a.fabric, addr) == View(b, f, addr) && !a.reply.Failure? &&
    a.fabric.regions == f.regions && a.bank.config == b.config
  }

  lemma RefilledKeeps(b: Bank, f: Fabric, start: nat, kind: AccessKind, addr: nat)
    requires BankOk(b, f) && b.pending.None? && Lookup(b, start).None? && CachesLine(b.config, LineBase(b.config, start))
    ensures FabricOk(f)
    ensures var a := Refilled(b, f, start, kind);
            Keeps(b, f, a, addr) && (a.reply.Got? ==> Lookup(a.bank, start) == Some(a.reply.value) && a.bank.pending.None?)
  {
    OkGivesActive(b, f);
    StartKeepsOk(b, f, start, kind);
    StartKeepsView(b, f, start, kind, addr);
    var started := StartPending(b, start, kind);
    ContinueKeeps(started, f, addr);
    hide BankOk, View, ContinuePending, StartPending, Lookup;
    var done := ContinuePending(started, f);
    if done.reply.Got? { InstalledIsFound(done.bank, started.pending.value.refill, start); }
  }

  lemma EnsureKeeps(b: Bank, f: Fabric, start: nat, kind: AccessKind, addr: nat)
    requires BankOk(b, f) && CachesLine(b.config, LineBase(b.config, start))
    ensures FabricOk(f) && BurstsActive(b, f)
    ensures var a := EnsureLine(b, f, start, kind);
            Keeps(b, f, a, addr) && (a.reply.Got? ==> Lookup(a.bank, start) == Some(a.reply.value) && a.bank.pending.None?)
  {
    OkGivesActive(b, f);
    ContinueKeeps(b, f, addr);
    hide BankOk, View, ContinuePending, Lookup, Refilled, CachesLine, LineBase;
    if !Occupied(b, start) {
      var first := ContinuePending(b, f);
      if first.reply.Got? && Lookup(first.bank, start).None? {
        RefilledKeeps(first.bank, first.fabric, start, kind, addr);
      }
    }
  }

  /* ---------- loads ---------- */

  /** The address of the word that holds this byte. */
  function WordBase(c: Config, addr: nat): nat
    requires c.Ok()
  {
    LineBase(c, addr) + 4 * WordIndex(c, addr)
  }

  lemma ByteOfWord(b: Bank, f: Fabric, addr: nat, way: nat, k: nat)
    requires BankOk(b, f) && Lookup(b, addr) == Some(way) && k < 4
    ensures View(b, f, WordBase(b.config, addr) + k)
         == Some(LineAt(b, SetOf(b.config, addr), way).words[WordIndex(b.config, addr)].At(k))
  {
    hide Quotient, Remainder, LineNumber, LineBase, SetOf, TagOf, Serves, Mapped, LinesMatch, UniqueTags, PendingMatches, Lookup;
    var c := b.config;
    var at := WordBase(c, addr) + k;
    SameLine(c, addr, at);
    LookupByLine(b, addr, at);
    BaseDecodes(c, addr);
    BaseDecodes(c, at);
  }

  /** A load keeps every address as it was, and when it completes it returns the four
      bytes of its word. */
  lemma LoadKeeps(b: Bank, f: Fabric, start: nat, kind: AccessKind, addr: nat)
    requires BankOk(b, f) && CachesLine(b.config, LineBase(b.config, start))
    ensures FabricOk(f) && BurstsActive(b, f)
    ensures var a := LoadLine(b, f, start, kind);
            Keeps(b, f, a, addr) && (a.reply.Busy? ==> a.bank.pending.Some?) &&
            (a.reply.Got? && WordBase(b.config, start) <= addr < WordBase(b.config, start) + 4 ==>
               View(b, f, addr) == Some(a.reply.value.At(addr - WordBase(b.config, start))))
  {
    hide BankOk, View, EnsureLine, Lookup, Touch, CachesLine, LineBase, SetOf, WordIndex, BankShape, WordBase, LineAt;
    OkGivesActive(b, f);
    EnsureKeeps(b, f, start, kind, addr);
    BusyIsPending(b, f, start, kind);
    var e := EnsureLine(b, f, start, kind);
    if e.reply.Got? {
      TouchKeeps(e.bank, e.fabric, SetOf(b.config, start), e.reply.value, addr);
      TouchShape(e.bank, SetOf(b.config, start), e.reply.value);
      if WordBase(b.config, start) <= addr < WordBase(b.config, start) + 4 {
        ByteOfWord(e.bank, e.fabric, start, e.reply.value, addr - WordBase(b.config, start));
      }
    }
  }

  lemma BusyIsPending(b: Bank, f: Fabric, start: nat, kind: AccessKind)
    requires BankOk(b, f) && CachesLine(b.config, LineBase(b.config, start))
    ensures FabricOk(f) && BurstsActive(b, f)
    ensures var a := EnsureLine(b, f, start, kind); a.reply.Busy? ==> a.bank.pending.Some?
  {
    OkGivesActive(b, f);
    ContinueKeeps(b, f, 0);
    hide View, ContinuePending, Lookup, StartPending;
    if !Occupied(b, start) {
      var first := ContinuePending(b, f);
      if first.reply.Got? && Lookup(first.bank, start).None? {
        StartKeepsOk(first.bank, first.fabric, start, kind);
        ContinueKeeps(StartPending(first.bank, start, kind), first.fabric, 0);
      }
    }
  }

  /* ---------- stores ---------- */

  lemma StoredByte(f: Fabric, region: nat, addr: nat, value: Byte)
    requires region < |f.regions| && Backed(f) && StoreByte(f, region, addr, value).Done?
    ensures var bytes := StoreByte(f, region, addr, value).value;
            SameOutside(f.bytes, bytes, addr, 1) && addr in bytes && bytes[addr] == value && Backed(f.(bytes := bytes))
  {
  }

  lemma {:induction false} StoredBytes(f: Fabric, region: nat, addr: nat, data: Word4, k: nat, width: nat)
    requires region < |f.regions| && Backed(f) && k <= width <= 4
    ensures var s := StoreFrom(f, region, addr, data, k, width);
            SameOutside(f.bytes, s.bytes, addr + k, width - k) &&
            (s.fault.None? ==>
               forall a: nat | addr + k <= a < addr + width :: a in s.bytes && s.bytes[a] == data.At(a - addr))
    decreases width - k
  {
    hide StoreByte, Backed, SameOutside;
    SameOutsideItself(f.bytes, addr + k, width - k);
    if k < width {
      var stored := StoreByte(f, region, addr + k, data.At(k));
      if stored.Done? {
        var g := f.(bytes := stored.value);
        StoredByte(f, region, addr + k, data.At(k));
        StoredBytes(g, region, addr, data, k + 1, width);
        var s := StoreFrom(g, region, addr, data, k + 1, width);
        assert s == StoreFrom(f, region, addr, data, k, width);
        OneMoreByte(f.bytes, g.bytes, s.bytes, addr + k, width - k);
      }
    }
  }

  /** A byte and then others after it. */
  lemma OneMoreByte(before: Bytes, middle: Bytes, after: Bytes, addr: nat, width: nat)
    requires width > 0 && SameOutside(before, middle, addr, 1) && SameOutside(middle, after, addr + 1, width - 1)
    ensures SameOutside(before, after, addr, width) && (addr in middle ==> addr in after && after[addr] == middle[addr])
  {
  }

  lemma {:induction false} WritableStores(f: Fabric, region: nat, addr: nat, data: Word4, k: nat, width: nat)
    requires region < |f.regions| && k <= width <= 4 && f.regions[region].writable
    requires f.regions[region].start <= addr && addr + width <= f.regions[region].start + f.regions[region].size
    ensures StoreFrom(f, region, addr, data, k, width).fault.None?
    decreases width - k
  {
    if k < width {
      WritableStores(f.(bytes := f.bytes[addr + k := data.At(k)]), region, addr, data, k + 1, width);
    }
  }

  predicate InStore(op: StoreOp, addr: nat) { op.addr <= addr < op.addr + op.width }

  /** Memory after the bytes of a store have been replaced, and no others. */
  ghost predicate Replaced(before: Bytes, after: Bytes, op: StoreOp)
    requires op.width <= 4
  {
    SameOutside(before, after, op.addr, op.width) &&
    forall a: nat | InStore(op, a) :: a in after && after[a] == op.data.At(a - op.addr)
  }

  lemma CommitFacts(f: Fabric, op: StoreOp, busy: bool)
    requires FabricOk(f) && Backed(f) && op.width <= 4
    ensures var d := CommitStore(f, op, busy);
            d.fabric == f.(bytes := d.fabric.bytes) && SameOutside(f.bytes, d.fabric.bytes, op.addr, op.width) &&
            (d.reply.Busy? ==> d.fabric == f) && (d.reply.Got? ==> Replaced(f.bytes, d.fabric.bytes, op))
  {
    var region := FindRegion(f.regions, op.addr);
    if region.Some? {
      StoredBytes(f, region.value, op.addr, op.data, 0, op.width);
      var s := StoreFrom(f, region.value, op.addr, op.data, 0, op.width);
      hide StoreFrom;
    }
  }

  lemma MappedCommits(c: Config, f: Fabric, op: StoreOp, busy: bool)
    requires c.Ok() && FabricOk(f) && LineMapped(f, LineBase(c, op.addr), c.words) && op.width <= 4 && Fits(c, op)
    requires LineWritable(f, LineBase(c, op.addr))
    ensures !CommitStore(f, op, busy).reply.Failure?
  {
    var base := LineBase(c, op.addr);
    StoreInLine(c, op);
    var r := FindRegion(f.regions, base).value;
    RoutedToTheOnlyDevice(f.regions, op.addr, r);
    WritableStores(f, r, op.addr, op.data, 0, op.width);
  }

  lemma StoreInLine(c: Config, op: StoreOp)
    requires c.Ok() && Fits(c, op)
    ensures LineBase(c, op.addr) <= op.addr && op.addr + op.width <= LineBase(c, op.addr) + c.LineSize()
  {
  }

  /** A store beside the bank's burst does not disturb it. */
  lemma StoreServes(f: Fabric, bytes: Bytes, mine: Mine, addr: nat, width: nat)
    requires Serves(f, mine) && SameOutside(f.bytes, bytes, addr, width)
    requires !mine.NoBurst? ==> addr + width <= mine.base || mine.base + 4 * mine.Request().Beats() <= addr
    ensures Serves(f.(bytes := bytes), mine)
  {
    var g := f.(bytes := bytes);
    if !mine.NoBurst? {
      SameIndices(f, g, mine.id);
      var b := f.bursts[BurstIndex(f, mine.id).value];
      var words := if mine.Writing? then mine.words else b.readWords;
      forall k | 0 <= k < b.beat ensures WordAt(bytes, mine.base + 4 * k) == Some(words[k]) {
        assert WordAt(f.bytes, mine.base + 4 * k) == Some(words[k]);
      }
    }
  }

  /* ---------- a store into a line ---------- */

  lemma {:induction false} PatchByte(word: Word4, at: nat, data: Word4, k: nat, width: nat, j: nat)
    requires k <= width && at + width <= 4 && j < 4
    ensures Patch(word, at, data, k, width).At(j) == if at + k <= j < at + width then data.At(j - at) else word.At(j)
    decreases width - k
  {
    if k < width { PatchByte(word.With(at + k, data.At(k)), at, data, k + 1, width, j); }
  }

  lemma AppliedByte(c: Config, words: seq<Word4>, op: StoreOp, offset: nat)
    requires c.Ok() && |words| == c.words && Fits(c, op) && offset < c.LineSize()
    ensures var at := op.addr - LineBase(c, op.addr);
            ByteIn(Applied(c, words, op), offset)
            == if at <= offset < at + op.width then op.data.At(offset - at) else ByteIn(words, offset)
  {
    var at := op.addr - LineBase(c, op.addr);
    if offset / 4 == at / 4 {
      PatchByte(words[at / 4], at % 4, op.data, 0, op.width, offset % 4);
    }
    hide Patch, LineBase;
  }

  predicate ByteHeld(bytes: Bytes, base: nat, words: seq<Word4>, offset: nat) {
    offset < 4 * |words| ==> base + offset in bytes && bytes[base + offset] == ByteIn(words, offset)
  }

  lemma HeldFromBytes(bytes: Bytes, base: nat, words: seq<Word4>)
    requires forall offset: nat :: ByteHeld(bytes, base, words, offset)
    ensures Holds(bytes, base, words, |words|)
  {
    forall k | 0 <= k < |words| ensures WordAt(bytes, base + 4 * k) == Some(words[k]) {
      assert ByteHeld(bytes, base, words, 4 * k) && ByteHeld(bytes, base, words, 4 * k + 1);
      assert ByteHeld(bytes, base, words, 4 * k + 2) && ByteHeld(bytes, base, words, 4 * k + 3);
    }
  }

  lemma UpdateShape(b: Bank, op: StoreOp, way: nat, dirty: bool)
    requires BankShape(b) && way < b.config.ways && Fits(b.config, op)
    ensures var r, set_ := UpdateLine(b, op, way, dirty), SetOf(b.config, op.addr);
            r.config == b.config && r.pending == b.pending && BankShape(r) &&
            LineAt(r, set_, way) == CacheLine(true, dirty, TagOf(b.config, op.addr),
                                              Applied(b.config, LineAt(b, set_, way).words, op), b.epoch + 1) &&
            forall s, w | 0 <= s < b.config.sets && 0 <= w < b.config.ways && !(s == set_ && w == way) ::
              LineAt(r, s, w) == LineAt(b, s, w)
  {
    hide Applied, SetOf, TagOf;
  }

  /** The byte at an address after a store that completed. */
  function AfterStore(op: StoreOp, addr: nat, before: Option<Byte>): Option<Byte>
    requires op.width <= 4
  {
    if InStore(op, addr) then Some(op.data.At(addr - op.addr)) else before
  }

  /** The bytes of the stored-to line, after the store. */
  lemma UpdatedView(b: Bank, f: Fabric, g: Fabric, op: StoreOp, way: nat, dirty: bool, addr: nat)
    requires BankOk(b, f) && b.pending.None? && HitAt(b, op.addr, way) && Fits(b.config, op) && op.width <= 4
    requires SameOutside(f.bytes, g.bytes, op.addr, op.width)
    ensures UniqueTags(UpdateLine(b, op, way, dirty))
    ensures View(UpdateLine(b, op, way, dirty), g, addr) == AfterStore(op, addr, View(b, f, addr))
  {
    var c, r, set_ := b.config, UpdateLine(b, op, way, dirty), SetOf(b.config, op.addr);
    UpdateShape(b, op, way, dirty);
    StoreInLine(c, op);
    SameLine(c, op.addr, addr);
    DecodeRoundTrip(c, addr);
    DecodeRoundTrip(c, op.addr);
    BaseDecodes(c, addr);
    BaseDecodes(c, op.addr);
    hide UpdateLine, Quotient, Remainder, LineNumber, LineBase, SetOf, TagOf, BaseFor, Serves, Mapped, CachesLine, ByteIn,
         Lookup, LinesMatch, PendingMatches, Applied;
    if LineBase(c, addr) == LineBase(c, op.addr) {
      LookupIs(b, addr, way);
      LookupIs(r, addr, way);
      AppliedByte(c, LineAt(b, set_, way).words, op, addr - LineBase(c, addr));
    } else {
      LookupElsewhere(b, r, set_, way, addr);
    }
  }

  lemma WriteBackHit(b: Bank, f: Fabric, op: StoreOp, way: nat)
    requires BankOk(b, f) && b.pending.None? && HitAt(b, op.addr, way) && Fits(b.config, op) && op.width <= 4
    requires b.config.writeBack && CachesLine(b.config, LineBase(b.config, op.addr))
    ensures BankOk(UpdateLine(b, op, way, true), f)
  {
    UpdatedView(b, f, f, op, way, true, 0);
    UpdateShape(b, op, way, true);
    DecodeRoundTrip(b.config, op.addr);
    hide UpdateLine, Quotient, Remainder, LineNumber, LineBase, SetOf, TagOf, BaseFor, Serves, Mapped, CachesLine, ByteIn,
         Lookup, Applied, UniqueTags, Holds, View;
  }

  /** Both the line and memory take the bytes of the store, so the line still matches. */
  lemma WrittenThrough(c: Config, f: Fabric, g: Fabric, op: StoreOp, words: seq<Word4>)
    requires c.Ok() && |words| == c.words && Fits(c, op) && op.width <= 4 && Replaced(f.bytes, g.bytes, op)
    requires Holds(f.bytes, LineBase(c, op.addr), words, c.words)
    ensures Holds(g.bytes, LineBase(c, op.addr), Applied(c, words, op), c.words)
  {
    var base, after := LineBase(c, op.addr), Applied(c, words, op);
    hide Holds, LineBase, Applied, ByteIn;
    AppliedLength(c, words, op);
    forall offset: nat ensures ByteHeld(g.bytes, base, after, offset) {
      if offset < 4 * |after| {
        HeldByte(f.bytes, base, words, offset);
        AppliedByte(c, words, op, offset);
        assert InStore(op, base + offset) <==> op.addr - base <= offset < op.addr - base + op.width;
      }
    }
    HeldFromBytes(g.bytes, base, after);
  }

  lemma AppliedLength(c: Config, words: seq<Word4>, op: StoreOp)
    requires c.Ok() && |words| == c.words && Fits(c, op)
    ensures |Applied(c, words, op)| == c.words
  {
  }

  /* ---------- a whole store ---------- */

  /** What a store comes to: nothing, or exactly its bytes. */
  ghost predicate StoreDone(b: Bank, f: Fabric, op: StoreOp, a: Access<()>, addr: nat)
    requires BankShape(b) && op.width <= 4
  {
    BankOk(a.bank, a.fabric) && a.fabric.regions == f.regions && a.bank.config == b.config &&
    (a.reply.Got? ==> View(a.bank, a.fabric, addr) == AfterStore(op, addr, View(b, f, addr))) &&
    (a.reply.Busy? ==> View(a.bank, a.fabric, addr) == View(b, f, addr))
  }

  lemma HitCommits(b: Bank, f: Fabric, op: StoreOp, way: nat, busy: bool, addr: nat)
    requires BankOk(b, f) && b.pending.None? && HitAt(b, op.addr, way) && Fits(b.config, op) && op.width <= 4
    requires !b.config.writeBack && CachesLine(b.config, LineBase(b.config, op.addr))
    ensures FabricOk(f)
    ensures var d := CommitStore(f, op, busy);
            !d.reply.Failure? && d.fabric.regions == f.regions && (d.reply.Busy? ==> d.fabric == f) &&
            (d.reply.Got? ==>
               var r := UpdateLine(b, op, way, false);
               BankOk(r, d.fabric) && r.config == b.config &&
               View(r, d.fabric, addr) == AfterStore(op, addr, View(b, f, addr)))
  {
    OkGivesActive(b, f);
    var c, d := b.config, CommitStore(f, op, busy);
    ServesIsBacked(f, NoBurst);
    BaseDecodes(c, op.addr);
    MappedLine(c, f, LineBase(c, op.addr));
    MappedCommits(c, f, op, busy);
    CommitFacts(f, op, busy);
    if d.reply.Got? {
      var g, r := d.fabric, UpdateLine(b, op, way, false);
      UpdatedView(b, f, g, op, way, false, addr);
      UpdateShape(b, op, way, false);
      StoreServes(f, g.bytes, NoBurst, op.addr, op.width);
      MappedSame(c, f, g);
      DecodeRoundTrip(c, op.addr);
      StoreInLine(c, op);
      WrittenThrough(c, f, g, op, LineAt(b, SetOf(c, op.addr), way).words);
      OthersStillMatch(b, r, f, g, op, way);
      hide UpdateLine, Quotient, Remainder, LineNumber, LineBase, SetOf, TagOf, BaseFor, Serves, Mapped, CachesLine, ByteIn,
           Lookup, Applied, UniqueTags, Holds, View, CommitStore, LinesMatch;
    }
  }

  lemma ServesIsBacked(f: Fabric, mine: Mine)
    requires Serves(f, mine)
    ensures FabricOk(f) && Backed(f)
  {
  }

  /** Lines other than the stored-to one match memory as before. */
  lemma OthersStillMatch(b: Bank, r: Bank, f: Fabric, g: Fabric, op: StoreOp, way: nat)
    requires BankOk(b, f) && HitAt(b, op.addr, way) && Fits(b.config, op) && op.width <= 4 && !b.config.writeBack
    requires b.pending.None? && r == UpdateLine(b, op, way, false) && SameOutside(f.bytes, g.bytes, op.addr, op.width)
    requires CachesLine(b.config, LineBase(b.config, op.addr))
    requires Holds(g.bytes, LineBase(b.config, op.addr),
                   Applied(b.config, LineAt(b, SetOf(b.config, op.addr), way).words, op), b.config.words)
    ensures LinesMatch(r, g)
  {
    var c, set_ := b.config, SetOf(b.config, op.addr);
    UpdateShape(b, op, way, false);
    DecodeRoundTrip(c, op.addr);
    BaseDecodes(c, op.addr);
    StoreInLine(c, op);
    hide UpdateLine, Applied, Serves, Mapped, CachesLine, Lookup, View;
    forall s, w | 0 <= s < c.sets && 0 <= w < c.ways && !(s == set_ && w == way) && LineAt(r, s, w).valid
      ensures Held(c, g, s, LineAt(r, s, w)) || LineAt(r, s, w).dirty
    {
      var line := LineAt(b, s, w);
      assert LineAt(r, s, w) == line;
      EncodeRoundTrip(c, s, line.tag);
      if BaseFor(c, s, line.tag) == LineBase(c, op.addr) {
        assert false;
      }
      LinesApart(c, BaseFor(c, s, line.tag), LineBase(c, op.addr));
      HoldsElsewhere(f.bytes, g.bytes, op.addr, op.width, BaseFor(c, s, line.tag), line.words);
    }
    hide Quotient, Remainder, LineNumber, LineBase, SetOf, TagOf, BaseFor, Holds;
  }

  lemma StoreHitKeeps(b: Bank, f: Fabric, op: StoreOp, way: nat, busy: bool, addr: nat)
    requires BankOk(b, f) && b.pending.None? && HitAt(b, op.addr, way) && Fits(b.config, op) && op.width <= 4
    requires CachesLine(b.config, LineBase(b.config, op.addr))
    ensures StoreDone(b, f, op, StoreHit(b, f, op, way, busy), addr) && !StoreHit(b, f, op, way, busy).reply.Failure?
  {
    if b.config.writeBack {
      WriteBackHit(b, f, op, way);
      UpdatedView(b, f, f, op, way, true, addr);
      UpdateShape(b, op, way, true);
      SameOutsideItself(f.bytes, op.addr, op.width);
    } else {
      HitCommits(b, f, op, way, busy, addr);
    }
    hide BankOk, View, UpdateLine, CommitStore;
  }

  lemma SameOutsideItself(bytes: Bytes, addr: nat, width: nat)
    ensures SameOutside(bytes, bytes, addr, width)
  {
  }

  /** A store past the bank, to a line it does not hold. */
  lemma StorePast(b: Bank, f: Fabric, op: StoreOp, busy: bool, addr: nat)
    requires BankOk(b, f) && Fits(b.config, op) && op.width <= 4 && Lookup(b, op.addr).None? && !Saved(b, op.addr)
    requires b.pending.Some? ==> b.pending.value.refill.base != LineBase(b.config, op.addr)
    ensures FabricOk(f)
    ensures var d := CommitStore(f, op, busy); StoreDone(b, f, op, Access(b, d.fabric, d.reply), addr)
  {
    OkGivesActive(b, f);
    ServesIsBacked(f, MineOf(b));
    CommitFacts(f, op, busy);
    var c, d := b.config, CommitStore(f, op, busy);
    var g := d.fabric;
    MineIsApart(b, f, op);
    StoreServes(f, g.bytes, MineOf(b), op.addr, op.width);
    MappedSame(c, f, g);
    PastMatches(b, f, g, op);
    PastView(b, f, g, op, addr);
    hide BankShape, UniqueTags, LinesMatch, PendingMatches, Mapped, Serves, CommitStore, View, Lookup;
  }

  lemma MineIsApart(b: Bank, f: Fabric, op: StoreOp)
    requires BankOk(b, f) && Fits(b.config, op) && op.width <= 4 && !Saved(b, op.addr)
    requires b.pending.Some? ==> b.pending.value.refill.base != LineBase(b.config, op.addr)
    ensures var mine := MineOf(b);
            !mine.NoBurst? ==> op.addr + op.width <= mine.base || mine.base + 4 * mine.Request().Beats() <= op.addr
  {
    StoreInLine(b.config, op);
    BaseDecodes(b.config, op.addr);
    if b.pending.Some? {
      var p := b.pending.value;
      EncodeRoundTrip(b.config, p.refill.set_, p.refill.tag);
      LinesApart(b.config, p.refill.base, LineBase(b.config, op.addr));
      if p.writeBack.Some? { LinesApart(b.config, p.writeBack.value.base, LineBase(b.config, op.addr)); }
    }
    hide Serves, Mapped, LinesMatch, UniqueTags, Lookup;
  }

  lemma PastMatches(b: Bank, f: Fabric, g: Fabric, op: StoreOp)
    requires BankOk(b, f) && Fits(b.config, op) && op.width <= 4 && Lookup(b, op.addr).None?
    requires SameOutside(f.bytes, g.bytes, op.addr, op.width)
    ensures LinesMatch(b, g)
  {
    var c := b.config;
    StoreInLine(c, op);
    BaseDecodes(c, op.addr);
    LookupHits(b, op.addr);
    hide Serves, Mapped, Lookup, CachesLine;
    forall s, w | 0 <= s < c.sets && 0 <= w < c.ways && LineAt(b, s, w).valid && !LineAt(b, s, w).dirty
      ensures Held(c, g, s, LineAt(b, s, w))
    {
      var line := LineAt(b, s, w);
      EncodeRoundTrip(c, s, line.tag);
      if BaseFor(c, s, line.tag) == LineBase(c, op.addr) {
        assert false;
      }
      LinesApart(c, BaseFor(c, s, line.tag), LineBase(c, op.addr));
      HoldsElsewhere(f.bytes, g.bytes, op.addr, op.width, BaseFor(c, s, line.tag), line.words);
    }
    hide Quotient, Remainder, LineNumber, LineBase, SetOf, TagOf, BaseFor, Holds;
  }

  lemma PastView(b: Bank, f: Fabric, g: Fabric, op: StoreOp, addr: nat)
    requires BankOk(b, f) && Fits(b.config, op) && op.width <= 4 && Lookup(b, op.addr).None? && !Saved(b, op.addr)
    ensures g.bytes == f.bytes ==> View(b, g, addr) == View(b, f, addr)
    ensures Replaced(f.bytes, g.bytes, op) ==> View(b, g, addr) == AfterStore(op, addr, View(b, f, addr))
  {
    StoreInLine(b.config, op);
    SameLine(b.config, op.addr, addr);
    if LineBase(b.config, addr) == LineBase(b.config, op.addr) { LookupByLine(b, addr, op.addr); }
    hide Serves, Mapped, Lookup, CachesLine, LinesMatch, UniqueTags, PendingMatches, LineBase, SetOf, ByteIn;
  }

  lemma NotCacheable(b: Bank, f: Fabric, addr: nat)
    requires BankOk(b, f) && !Cacheable(b.config, addr)
    ensures !CachesLine(b.config, LineBase(b.config, addr)) && Lookup(b, addr).None? && !Saved(b, addr)
    ensures b.pending.Some? ==> b.pending.value.refill.base != LineBase(b.config, addr)
  {
    var c := b.config;
    if CachesLine(c, LineBase(c, addr)) {
      assert false;
    }
    DecodeRoundTrip(c, addr);
    LookupHits(b, addr);
    hide Serves, Mapped, Lookup, CachesLine, UniqueTags, Quotient, Remainder, LineNumber, LineBase, BaseFor;
  }

  /** A store that completes changes exactly its own bytes; one that is told to wait
      changes nothing; and a store to a cached line never fails. */
  lemma StoreKeeps(b: Bank, f: Fabric, op: StoreOp, busy: bool, addr: nat)
    requires BankOk(b, f) && Fits(b.config, op) && op.width <= 4
    ensures FabricOk(f) && BurstsActive(b, f)
    ensures var a := StoreLine(b, f, op, busy);
            StoreDone(b, f, op, a, addr) && (Cacheable(b.config, op.addr) ==> !a.reply.Failure?)
  {
    hide BankOk, View, ContinuePending, Lookup, Refilled, StoreHit, CommitStore, LineBase, CachesLine, CachesAddress,
         BankShape, FabricOk, BurstsActive, Fits;
    OkGivesActive(b, f);
    if !Cacheable(b.config, op.addr) {
      NotCacheable(b, f, op.addr);
      StorePast(b, f, op, busy, addr);
    } else if !Occupied(b, op.addr) {
      ContinueKeeps(b, f, addr);
      var first := ContinuePending(b, f);
      if first.reply.Got? {
        StoreIntoIdle(first.bank, first.fabric, op, busy, addr);
      }
    }
  }

  /** The same, once no line operation is pending. */
  function StoreIdle(b: Bank, f: Fabric, op: StoreOp, busy: bool): Access<()>
    requires BankShape(b) && FabricOk(f) && b.pending.None? && op.width <= 4 && Fits(b.config, op)
  {
    var hit := Lookup(b, op.addr);
    if hit.Some? then StoreHit(b, f, op, hit.value, busy)
    else if !b.config.writeAllocate then
      var done := CommitStore(f, op, busy);
      Access(b, done.fabric, done.reply)
    else
      var e := Refilled(b, f, op.addr, LoadAccess);
      if e.reply.Got? then StoreHit(e.bank, e.fabric, op, e.reply.value, busy)
      else Access(e.bank, e.fabric, if e.reply.Busy? then Busy else Failure(e.reply.error))
  }

  lemma StoreIntoIdle(b: Bank, f: Fabric, op: StoreOp, busy: bool, addr: nat)
    requires BankOk(b, f) && b.pending.None? && Fits(b.config, op) && op.width <= 4
    requires CachesLine(b.config, LineBase(b.config, op.addr))
    ensures FabricOk(f)
    ensures var a := StoreIdle(b, f, op, busy); StoreDone(b, f, op, a, addr) && !a.reply.Failure?
  {
    OkGivesActive(b, f);
    LookupHits(b, op.addr);
    var hit := Lookup(b, op.addr);
    if hit.Some? {
      StoreHitKeeps(b, f, op, hit.value, busy, addr);
    } else if !b.config.writeAllocate {
      StorePast(b, f, op, busy, addr);
      BaseDecodes(b.config, op.addr);
      MappedLine(b.config, f, LineBase(b.config, op.addr));
      MappedCommits(b.config, f, op, busy);
    } else {
      RefilledKeeps(b, f, op.addr, LoadAccess, addr);
      var e := Refilled(b, f, op.addr, LoadAccess);
      if e.reply.Got? {
        LookupHits(e.bank, op.addr);
        StoreHitKeeps(e.bank, e.fabric, op, e.reply.value, busy, addr);
      }
    }
    hide BankOk, View, Lookup, Refilled, StoreHit, CommitStore, LineBase, CachesLine;
  }
}
