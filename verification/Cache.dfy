/** A set-associative cache bank over the fabric: decoding, victim choice, pending line
    operations, loads and stores. The bank and the fabric are values here; the class
    `CacheBank` of `CacheInPlace` updates the same fields in place. */
module Cache {
  import opened Wrappers
  import opened BusFabric
  import opened CachePort

  /* ---------- geometry ---------- */

  datatype Range = Range(start: nat, size: nat)

  datatype Config = Config(
    words: nat, ways: nat, sets: nat, lru: bool, writeBack: bool, writeAllocate: bool, ranges: seq<Range>)
  {
    predicate Ok() { words > 0 && ways > 0 && sets > 0 }
    function LineSize(): nat { 4 * words }
  }

  /* Products and quotients are written out as repeated addition and subtraction, so that a
     proof meets multiplication only where it asks for it. */

  function Times(n: nat, m: nat): nat {
    if n == 0 then 0 else m + Times(n - 1, m)
  }

  lemma {:induction false} TimesIsProduct(n: nat, m: nat)
    ensures Times(n, m) == n * m
  {
    if n > 0 {
      TimesIsProduct(n - 1, m);
      assert n * m == m + (n - 1) * m;
    }
  }

  function Quotient(a: nat, b: nat): (q: nat)
    requires b > 0
    ensures Times(q, b) <= a < Times(q, b) + b
    decreases a
  {
    if a < b then 0 else Quotient(a - b, b) + 1
  }

  function Remainder(a: nat, b: nat): (r: nat)
    requires b > 0
    ensures r < b && a == Times(Quotient(a, b), b) + r
    decreases a
  {
    if a < b then a else Remainder(a - b, b)
  }

  lemma {:induction false} QuotientIsUnique(n: nat, b: nat, r: nat)
    requires r < b
    ensures Quotient(Times(n, b) + r, b) == n && Remainder(Times(n, b) + r, b) == r
    decreases n
  {
    if n > 0 {
      QuotientIsUnique(n - 1, b, r);
      assert Times(n, b) + r - b == Times(n - 1, b) + r;
    }
  }

  /** They are division and its remainder. */
  lemma QuotientIsDivision(a: nat, b: nat)
    requires b > 0
    ensures Quotient(a, b) == a / b && Remainder(a, b) == a % b
  {
    var q, r := Quotient(a, b), Remainder(a, b);
    TimesIsProduct(q, b);
    DivisionIsUnique(a, b, q, r);
  }

  lemma DivisionIsUnique(a: nat, b: nat, q: nat, r: nat)
    requires b > 0 && r < b && a == q * b + r
    ensures a / b == q && a % b == r
  {
    var d := a / b;
    assert a == d * b + a % b;
    if d > q {
      MultiplesAreApart(q, d, b);
      assert false;
    }
    if q > d {
      MultiplesAreApart(d, q, b);
      assert false;
    }
  }

  lemma MultiplesAreApart(p: nat, q: nat, b: nat)
    requires p < q
    ensures p * b + b <= q * b
  {
    assert q * b == p * b + (q - p) * b && (q - p) * b == b + (q - p - 1) * b;
  }

  function LineNumber(c: Config, addr: nat): nat
    requires c.Ok()
  {
    Quotient(addr, c.LineSize())
  }

  /** The address with its offset in the line cleared. */
  function LineBase(c: Config, addr: nat): (base: nat)
    requires c.Ok()
    ensures base <= addr < base + c.LineSize()
  {
    Times(LineNumber(c, addr), c.LineSize())
  }

  function SetOf(c: Config, addr: nat): (s: nat)
    requires c.Ok()
    ensures s < c.sets
  {
    Remainder(LineNumber(c, addr), c.sets)
  }

  function TagOf(c: Config, addr: nat): nat
    requires c.Ok()
  {
    Quotient(LineNumber(c, addr), c.sets)
  }

  /** `line_base_for_tag`. */
  function BaseFor(c: Config, set_: nat, tag: nat): nat
    requires c.Ok()
  {
    Times(Times(tag, c.sets) + set_, c.LineSize())
  }

  /** Two addresses are in one line exactly when one lies in the other's line. */
  lemma SameLine(c: Config, addr: nat, other: nat)
    requires c.Ok()
    ensures LineBase(c, addr) <= other < LineBase(c, addr) + c.LineSize() <==> LineBase(c, other) == LineBase(c, addr)
  {
    if LineBase(c, addr) <= other < LineBase(c, addr) + c.LineSize() {
      QuotientIsUnique(LineNumber(c, addr), c.LineSize(), other - LineBase(c, addr));
    }
  }

  /** The round trip from an address to its set and tag and back, for any set count. */
  lemma DecodeRoundTrip(c: Config, addr: nat)
    requires c.Ok()
    ensures BaseFor(c, SetOf(c, addr), TagOf(c, addr)) == LineBase(c, addr)
  {
    hide Quotient;
  }

  lemma EncodeRoundTrip(c: Config, set_: nat, tag: nat)
    requires c.Ok() && set_ < c.sets
    ensures var base := BaseFor(c, set_, tag);
            SetOf(c, base) == set_ && TagOf(c, base) == tag && LineBase(c, base) == base
  {
    QuotientIsUnique(Times(tag, c.sets) + set_, c.LineSize(), 0);
    QuotientIsUnique(tag, c.sets, set_);
  }

  /** A line's own address decodes as every address in it. */
  lemma BaseDecodes(c: Config, addr: nat)
    requires c.Ok()
    ensures var base := LineBase(c, addr);
            SetOf(c, base) == SetOf(c, addr) && TagOf(c, base) == TagOf(c, addr) && LineBase(c, base) == base
  {
    QuotientIsUnique(LineNumber(c, addr), c.LineSize(), 0);
  }

  predicate CachesAddress(c: Config, addr: nat) {
    exists k | 0 <= k < |c.ranges| :: c.ranges[k].start <= addr < c.ranges[k].start + c.ranges[k].size
  }

  predicate CachesLine(c: Config, base: nat) {
    exists k | 0 <= k < |c.ranges| ::
      c.ranges[k].start <= base && base + c.LineSize() <= c.ranges[k].start + c.ranges[k].size
  }

  /* ---------- the bank ---------- */

  datatype CacheLine = CacheLine(valid: bool, dirty: bool, tag: nat, words: seq<Word4>, lastUsed: nat)
  datatype CacheSet = CacheSet(lines: seq<CacheLine>, nextVictim: nat)

  datatype PendingWriteBack = PendingWriteBack(base: nat, words: seq<Word4>, burst: Option<nat>)
  datatype PendingRefill = PendingRefill(base: nat, set_: nat, tag: nat, way: nat, kind: AccessKind, burst: Option<nat>)
  datatype PendingLine = PendingLine(writeBack: Option<PendingWriteBack>, refill: PendingRefill)

  datatype Bank = Bank(config: Config, sets: seq<CacheSet>, pending: Option<PendingLine>, epoch: nat)

  predicate LineShape(c: Config, l: CacheLine) { |l.words| == c.words }

  predicate SetShape(c: Config, s: CacheSet) {
    |s.lines| == c.ways && s.nextVictim < c.ways && forall w | 0 <= w < c.ways :: LineShape(c, s.lines[w])
  }

  predicate PendingShape(c: Config, p: PendingLine) {
    p.refill.set_ < c.sets && p.refill.way < c.ways &&
    (p.writeBack.Some? ==> |p.writeBack.value.words| == c.words && p.refill.burst.None?)
  }

  predicate BankShape(b: Bank) {
    b.config.Ok() && |b.sets| == b.config.sets && (forall s | 0 <= s < b.config.sets :: SetShape(b.config, b.sets[s])) &&
    (b.pending.Some? ==> PendingShape(b.config, b.pending.value))
  }

  /** The bursts a bank waits for are in the fabric. */
  predicate BurstsActive(b: Bank, f: Fabric) {
    b.pending.Some? ==>
      var p := b.pending.value;
      (p.writeBack.Some? && p.writeBack.value.burst.Some? ==> BurstIndex(f, p.writeBack.value.burst.value).Some?) &&
      (p.refill.burst.Some? ==> BurstIndex(f, p.refill.burst.value).Some?)
  }

  function FreshBank(c: Config): Bank
    requires c.Ok()
  {
    var line := CacheLine(false, false, 0, ZeroWords(c.words), 0);
    Bank(c, seq(c.sets, (k: nat) => CacheSet(seq(c.ways, (w: nat) => line), 0)), None, 0)
  }

  function WayFrom(lines: seq<CacheLine>, tag: nat, k: nat): (w: Option<nat>)
    requires k <= |lines|
    ensures w.Some? ==> k <= w.value < |lines| && lines[w.value].valid && lines[w.value].tag == tag
    ensures w.None? ==> forall j | k <= j < |lines| :: !(lines[j].valid && lines[j].tag == tag)
    decreases |lines| - k
  {
    if k == |lines| then None
    else if lines[k].valid && lines[k].tag == tag then Some(k)
    else WayFrom(lines, tag, k + 1)
  }

  /** `lookup_way`. */
  function Lookup(b: Bank, addr: nat): (w: Option<nat>)
    requires BankShape(b)
    ensures w.Some? ==> w.value < b.config.ways
  {
    WayFrom(b.sets[SetOf(b.config, addr)].lines, TagOf(b.config, addr), 0)
  }

  function LineAt(b: Bank, set_: nat, way: nat): CacheLine
    requires BankShape(b) && set_ < b.config.sets && way < b.config.ways
  {
    b.sets[set_].lines[way]
  }

  function WithLine(b: Bank, set_: nat, way: nat, line: CacheLine): (r: Bank)
    requires BankShape(b) && set_ < b.config.sets && way < b.config.ways && LineShape(b.config, line)
    ensures BankShape(r)
  {
    b.(sets := b.sets[set_ := b.sets[set_].(lines := b.sets[set_].lines[way := line])])
  }

  /** `touch_line`. */
  function Touch(b: Bank, set_: nat, way: nat): (r: Bank)
    requires BankShape(b) && set_ < b.config.sets && way < b.config.ways
    ensures BankShape(r)
  {
    WithLine(b, set_, way, LineAt(b, set_, way).(lastUsed := b.epoch + 1)).(epoch := b.epoch + 1)
  }

  /* ---------- choosing a victim ---------- */

  function FirstInvalid(lines: seq<CacheLine>, k: nat): (w: Option<nat>)
    requires k <= |lines|
    ensures w.Some? ==> k <= w.value < |lines| && !lines[w.value].valid
    ensures w.None? ==> forall j | k <= j < |lines| :: lines[j].valid
    decreases |lines| - k
  {
    if k == |lines| then None else if !lines[k].valid then Some(k) else FirstInvalid(lines, k + 1)
  }

  /** The first line, from `k` on or `best`, with the least `lastUsed`. */
  function LeastRecent(lines: seq<CacheLine>, k: nat, best: nat): (w: nat)
    requires best < k <= |lines|
    requires forall j | 0 <= j < k :: lines[best].lastUsed <= lines[j].lastUsed
    ensures w < |lines| && forall j | 0 <= j < |lines| :: lines[w].lastUsed <= lines[j].lastUsed
    decreases |lines| - k
  {
    if k == |lines| then best
    else LeastRecent(lines, k + 1, if lines[k].lastUsed < lines[best].lastUsed then k else best)
  }

  datatype Choice = Choice(bank: Bank, way: nat)

  /** `select_victim`. */
  function SelectVictim(b: Bank, set_: nat): (v: Choice)
    requires BankShape(b) && set_ < b.config.sets
    ensures BankShape(v.bank) && v.way < b.config.ways
    ensures v.bank == b.(sets := v.bank.sets) && forall s | 0 <= s < b.config.sets :: v.bank.sets[s].lines == b.sets[s].lines
    ensures (exists j | 0 <= j < b.config.ways :: !LineAt(b, set_, j).valid) ==> !LineAt(b, set_, v.way).valid
    ensures b.config.lru && LineAt(b, set_, v.way).valid ==>
      forall j | 0 <= j < b.config.ways :: LineAt(b, set_, v.way).lastUsed <= LineAt(b, set_, j).lastUsed
  {
    var s := b.sets[set_];
    var invalid := FirstInvalid(s.lines, 0);
    if invalid.Some? then
      if b.config.lru then Choice(b, invalid.value)
      else Choice(b.(sets := b.sets[set_ := s.(nextVictim := (invalid.value + 1) % b.config.ways)]), invalid.value)
    else if b.config.lru then Choice(b, LeastRecent(s.lines, 1, 0))
    else Choice(b.(sets := b.sets[set_ := s.(nextVictim := (s.nextVictim + 1) % b.config.ways)]), s.nextVictim)
  }

  /* ---------- pending line operations ---------- */

  /** `start_pending`: the victim is invalidated, its words kept if they are dirty. */
  function StartPending(b: Bank, addr: nat, kind: AccessKind): (r: Bank)
    requires BankShape(b) && b.pending.None?
    ensures BankShape(r) && r.config == b.config && r.pending.Some? && r.pending.value.refill.burst.None?
    ensures r.pending.value.refill.set_ == SetOf(b.config, addr) && r.pending.value.refill.tag == TagOf(b.config, addr)
    ensures r.pending.value.writeBack.Some? ==> r.pending.value.writeBack.value.burst.None?
  {
    var c, set_ := b.config, SetOf(b.config, addr);
    var v := SelectVictim(b, set_);
    var line := LineAt(v.bank, set_, v.way);
    var saved := if c.writeBack && line.valid && line.dirty
      then Some(PendingWriteBack(BaseFor(c, set_, line.tag), line.words, None)) else None;
    WithLine(v.bank, set_, v.way, line.(valid := false, dirty := false)).(
      pending := Some(PendingLine(saved, PendingRefill(LineBase(c, addr), set_, TagOf(c, addr), v.way, kind, None))))
  }

  /** Whether the lower bus has room for a new write and a new read burst. */
  datatype Room = Room(toWrite: bool, toRead: bool)

  const ROOM: Room := Room(true, true)

  datatype Reply<T> = Got(value: T) | Busy | Failure(error: Error)

  datatype Access<T> = Access(bank: Bank, fabric: Fabric, reply: Reply<T>)

  function Install(b: Bank, refill: PendingRefill, words: seq<Word4>): (r: Bank)
    requires BankShape(b) && refill.set_ < b.config.sets && refill.way < b.config.ways && |words| == b.config.words
    ensures BankShape(r)
  {
    var line := LineAt(b, refill.set_, refill.way);
    Touch(WithLine(b, refill.set_, refill.way, line.(valid := true, dirty := false, tag := refill.tag, words := words)),
          refill.set_, refill.way)
  }

  /** The refill's line is in its way. */
  predicate Installed(b: Bank, refill: PendingRefill)
    requires BankShape(b)
  {
    refill.set_ < b.config.sets && refill.way < b.config.ways && LineAt(b, refill.set_, refill.way).valid &&
    LineAt(b, refill.set_, refill.way).tag == refill.tag
  }

  lemma InstalledIsFound(b: Bank, refill: PendingRefill, addr: nat)
    requires BankShape(b) && Installed(b, refill) && refill.set_ == SetOf(b.config, addr) && refill.tag == TagOf(b.config, addr)
    ensures Lookup(b, addr).Some?
  {
  }

  /** The second half of `continue_pending`: `b` has no pending operation any more. */
  function ContinueRefill(b: Bank, f: Fabric, refill: PendingRefill, room: bool := true): (a: Access<()>)
    requires BankShape(b) && b.pending.None? && PendingShape(b.config, PendingLine(None, refill)) && FabricOk(f)
    requires refill.burst.Some? ==> BurstIndex(f, refill.burst.value).Some?
    ensures BankShape(a.bank) && a.bank.config == b.config && FabricOk(a.fabric)
    ensures a.reply.Got? ==> a.bank.pending.None? && Installed(a.bank, refill)
  {
    DriveKeepsOk(f, refill.burst, ReadWords(refill.base, b.config.words, refill.kind), room);
    var d := DriveBurst(f, refill.burst, ReadWords(refill.base, b.config.words, refill.kind), room);
    match d.outcome
    case Blocked => Access(b.(pending := Some(PendingLine(None, refill.(burst := d.burst)))), d.fabric, Busy)
    case TurnedAway => Access(b, d.fabric, Busy)
    case Broken(e) => Access(b, d.fabric, Failure(e))
    case Finished(response) =>
      if response.WordsRead? && |response.words| == b.config.words then
        Access(Install(b, refill, response.words), d.fabric, Got(()))
      else Access(b, d.fabric, Busy)
  }

  /** `continue_pending`. A burst that is turned away, refused or failed drops the operation. */
  function ContinuePending(b: Bank, f: Fabric, room: Room := ROOM): (a: Access<()>)
    requires BankShape(b) && FabricOk(f) && BurstsActive(b, f)
    ensures BankShape(a.bank) && a.bank.config == b.config && FabricOk(a.fabric)
    ensures a.reply.Got? ==> a.bank.pending.None?
    ensures a.reply.Got? && b.pending.Some? ==> Installed(a.bank, b.pending.value.refill)
  {
    if b.pending.None? then Access(b, f, Got(()))
    else
      var p := b.pending.value;
      var idle := b.(pending := None);
      if p.writeBack.None? then ContinueRefill(idle, f, p.refill, room.toRead)
      else
        var wb := p.writeBack.value;
        DriveKeepsOk(f, wb.burst, WriteWords(wb.base, wb.words), room.toWrite);
        var d := DriveBurst(f, wb.burst, WriteWords(wb.base, wb.words), room.toWrite);
        match d.outcome
        case Blocked => Access(b.(pending := Some(PendingLine(Some(wb.(burst := d.burst)), p.refill))), d.fabric, Busy)
        case TurnedAway => Access(idle, d.fabric, Busy)
        case Broken(e) => Access(idle, d.fabric, Failure(e))
        case Finished(_) =>
          DriveKeepsOk(f, wb.burst, WriteWords(wb.base, wb.words), room.toWrite);
          ContinueRefill(idle, d.fabric, p.refill, room.toRead)
  }

  lemma DriveKeepsOk(f: Fabric, burst: Option<nat>, request: BurstRequest, room: bool := true)
    requires FabricOk(f) && request.Beats() > 0 && (burst.Some? ==> BurstIndex(f, burst.value).Some?)
    ensures FabricOk(DriveBurst(f, burst, request, room).fabric)
  {
    if burst.Some? {
      DriveFromKeepsOk(f, burst.value);
    } else {
      var s := SubmitBurst(f, request);
      if s.id.Done? {
        SubmittedIsActive(f, request);
        DriveFromKeepsOk(s.fabric, s.id.value);
      }
    }
  }

  lemma {:induction false} DriveFromKeepsOk(f: Fabric, id: nat)
    requires FabricOk(f) && BurstIndex(f, id).Some?
    ensures FabricOk(DriveFrom(f, id).fabric)
    decreases DriveRank(f, id).0, DriveRank(f, id).1
  {
    if f.bursts[BurstIndex(f, id).value].phase.Accepted? {
      AdvanceDrives(f, id);
      var g := AdvanceBurst(f, id);
      if !g.bursts[BurstIndex(g, id).value].phase.InFlight? { DriveFromKeepsOk(g, id); }
    }
  }

  /** A pending operation for another line keeps the bank busy. */
  predicate Occupied(b: Bank, addr: nat)
    requires b.config.Ok()
  {
    b.pending.Some? && b.pending.value.refill.base != LineBase(b.config, addr)
  }

  /** `ensure_line`. */
  function EnsureLine(b: Bank, f: Fabric, addr: nat, kind: AccessKind, room: Room := ROOM): (a: Access<nat>)
    requires BankShape(b) && FabricOk(f) && BurstsActive(b, f)
    ensures BankShape(a.bank) && a.bank.config == b.config && (a.reply.Got? ==> a.reply.value < b.config.ways)
  {
    if Occupied(b, addr) then Access(b, f, Busy)
    else
      var first := ContinuePending(b, f, room);
      if !first.reply.Got? then Passed(first)
      else
        var hit := Lookup(first.bank, addr);
        if hit.Some? then Access(first.bank, first.fabric, Got(hit.value))
        else Refilled(first.bank, first.fabric, addr, kind, room)
  }

  function Passed<T>(a: Access<()>): (r: Access<T>)
    requires !a.reply.Got?
    ensures r.bank == a.bank && r.fabric == a.fabric && !r.reply.Got?
  {
    Access(a.bank, a.fabric, if a.reply.Busy? then Busy else Failure(a.reply.error))
  }

  /** A miss: start a refill and drive it as far as it goes. */
  function Refilled(b: Bank, f: Fabric, addr: nat, kind: AccessKind, room: Room := ROOM): (a: Access<nat>)
    requires BankShape(b) && b.pending.None? && FabricOk(f)
    ensures BankShape(a.bank) && a.bank.config == b.config && (a.reply.Got? ==> a.reply.value < b.config.ways)
  {
    var done := ContinuePending(StartPending(b, addr, kind), f, room);
    if !done.reply.Got? then Passed(done)
    else Access(done.bank, done.fabric, Got(Lookup(done.bank, addr).value))
  }

  /* ---------- loads and stores ---------- */

  function WordIndex(c: Config, addr: nat): (k: nat)
    requires c.Ok()
    ensures k < c.words
  {
    (addr - LineBase(c, addr)) / 4
  }

  /** `load_word`. */
  function LoadLine(b: Bank, f: Fabric, addr: nat, kind: AccessKind, room: Room := ROOM): (a: Access<Word4>)
    requires BankShape(b) && FabricOk(f) && BurstsActive(b, f)
    ensures BankShape(a.bank) && a.bank.config == b.config
  {
    var e := EnsureLine(b, f, addr, kind, room);
    match e.reply
    case Busy => Access(e.bank, e.fabric, Busy)
    case Failure(error) => Access(e.bank, e.fabric, Failure(error))
    case Got(way) =>
      var set_ := SetOf(b.config, addr);
      Access(Touch(e.bank, set_, way), e.fabric, Got(LineAt(e.bank, set_, way).words[WordIndex(b.config, addr)]))
  }

  /** A store of the low `width` bytes of `data`. */
  datatype StoreOp = StoreOp(addr: nat, width: nat, data: Word4)

  /** Copy bytes k..width of `data` into `word` from byte `at` on. */
  function Patch(word: Word4, at: nat, data: Word4, k: nat, width: nat): Word4
    requires k <= width && at + width <= 4
    decreases width - k
  {
    if k == width then word else Patch(word.With(at + k, data.At(k)), at, data, k + 1, width)
  }

  predicate Fits(c: Config, op: StoreOp)
    requires c.Ok()
  {
    (op.addr - LineBase(c, op.addr)) % 4 + op.width <= 4
  }

  lemma {:induction false} SameWithinWord(lines: nat, words: nat, off: nat)
    ensures (Times(lines, 4 * words) + off) % 4 == off % 4
    decreases lines
  {
    if lines > 0 {
      SameWithinWord(lines - 1, words, off);
      var rest := Times(lines - 1, 4 * words) + off;
      assert Times(lines, 4 * words) + off == 4 * words + rest;
    }
  }

  lemma SmallRemainders(addr: nat)
    ensures addr % 4 <= 3 && (addr % 2 == 0 ==> addr % 4 <= 2)
  {
  }

  /** The alignment the bus asks of a store keeps it inside one word of its line. */
  lemma AlignedFits(c: Config, op: StoreOp)
    requires c.Ok() && (op.width == 1 || (op.width == 2 && op.addr % 2 == 0) || (op.width == 4 && op.addr % 4 == 0))
    ensures Fits(c, op)
  {
    hide Quotient, LineNumber;
    SameWithinWord(LineNumber(c, op.addr), c.words, op.addr - LineBase(c, op.addr));
    SmallRemainders(op.addr);
  }

  /** `StoreOp::apply`. */
  function Applied(c: Config, words: seq<Word4>, op: StoreOp): seq<Word4>
    requires c.Ok() && |words| == c.words && Fits(c, op)
  {
    var k := WordIndex(c, op.addr);
    words[k := Patch(words[k], (op.addr - LineBase(c, op.addr)) % 4, op.data, 0, op.width)]
  }

  /** `update_cached_store`. */
  function UpdateLine(b: Bank, op: StoreOp, way: nat, dirty: bool): (r: Bank)
    requires BankShape(b) && way < b.config.ways && Fits(b.config, op)
    ensures BankShape(r) && r.config == b.config
  {
    var set_ := SetOf(b.config, op.addr);
    var line := LineAt(b, set_, way);
    Touch(WithLine(b, set_, way, CacheLine(true, dirty, TagOf(b.config, op.addr), Applied(b.config, line.words, op), line.lastUsed)),
          set_, way)
  }

  datatype Committing = Committing(fabric: Fabric, reply: Reply<()>)

  /** A store handed to the lower bus, which may answer Busy without effect. */
  function CommitStore(f: Fabric, op: StoreOp, busy: bool): Committing
    requires op.width <= 4
  {
    var region := FindRegion(f.regions, op.addr);
    if region.None? then Committing(f, Failure(Unmapped(op.addr)))
    else if busy then Committing(f, Busy)
    else
      var s := StoreFrom(f, region.value, op.addr, op.data, 0, op.width);
      Committing(f.(bytes := s.bytes), if s.fault.Some? then Failure(s.fault.value) else Got(()))
  }

  /** Write the line in `way`, after the lower bus if the bank writes through. */
  function StoreHit(b: Bank, f: Fabric, op: StoreOp, way: nat, busy: bool): (a: Access<()>)
    requires BankShape(b) && way < b.config.ways && op.width <= 4 && Fits(b.config, op)
    ensures BankShape(a.bank)
  {
    if b.config.writeBack then Access(UpdateLine(b, op, way, true), f, Got(()))
    else
      var done := CommitStore(f, op, busy);
      Access(if done.reply.Got? then UpdateLine(b, op, way, false) else b, done.fabric, done.reply)
  }

  predicate Cacheable(c: Config, addr: nat)
    requires c.Ok()
  {
    CachesAddress(c, addr) && CachesLine(c, LineBase(c, addr))
  }

  /** `store`. */
  function StoreLine(b: Bank, f: Fabric, op: StoreOp, busy: bool, room: Room := ROOM): (a: Access<()>)
    requires BankShape(b) && FabricOk(f) && BurstsActive(b, f) && op.width <= 4 && Fits(b.config, op)
    ensures BankShape(a.bank)
  {
    if !Cacheable(b.config, op.addr) then
      var done := CommitStore(f, op, busy);
      Access(b, done.fabric, done.reply)
    else if Occupied(b, op.addr) then Access(b, f, Busy)
    else
      var first := ContinuePending(b, f, room);
      if !first.reply.Got? then first
      else
        var hit := Lookup(first.bank, op.addr);
        if hit.Some? then StoreHit(first.bank, first.fabric, op, hit.value, busy)
        else if !b.config.writeAllocate then
          var done := CommitStore(first.fabric, op, busy);
          Access(first.bank, done.fabric, done.reply)
        else
          var e := Refilled(first.bank, first.fabric, op.addr, LoadAccess, room);
          if e.reply.Got? then StoreHit(e.bank, e.fabric, op, e.reply.value, busy)
          else Access(e.bank, e.fabric, if e.reply.Busy? then Busy else Failure(e.reply.error))
  }
}
