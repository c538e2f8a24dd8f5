/** Whole runs of a cache bank against plain memory. */
module CacheRuns {
  import opened Wrappers
  import opened BusFabric
  import opened CachePort
  import opened Cache
  import opened CacheProof

  /** A tick of the fabric, or one call of the bank; a call told Busy may be repeated or
      given up. `busy` says whether the lower bus makes a store wait. */
  datatype Event = Clock | Loading(addr: nat, kind: AccessKind) | Storing(op: StoreOp, busy: bool)

  datatype Point = Point(bank: Bank, fabric: Fabric)

  /** Loads reach the bank only for cached lines; stores stay inside a word. */
  predicate Allowed(c: Config, e: Event)
    requires c.Ok()
  {
    match e
    case Clock => true
    case Loading(addr, _) => CachesLine(c, LineBase(c, addr))
    case Storing(op, _) => op.width <= 4 && Fits(c, op)
  }

  ghost predicate PointOk(p: Point) { BankOk(p.bank, p.fabric) }

  function After(p: Point, e: Event): Point
    requires BankShape(p.bank) && FabricOk(p.fabric) && BurstsActive(p.bank, p.fabric) && Allowed(p.bank.config, e)
  {
    match e
    case Clock => Point(p.bank, Tick(p.fabric))
    case Loading(addr, kind) => var a := LoadLine(p.bank, p.fabric, addr, kind); Point(a.bank, a.fabric)
    case Storing(op, busy) => var a := StoreLine(p.bank, p.fabric, op, busy); Point(a.bank, a.fabric)
  }

  /** Plain memory: what each address holds. */
  type Plain = nat -> Option<Byte>

  ghost predicate Shows(p: Point, mem: Plain)
    requires BankShape(p.bank)
  {
    forall addr :: View(p.bank, p.fabric, addr) == mem(addr)
  }

  function PlainStore(mem: Plain, op: StoreOp): Plain
    requires op.width <= 4
  {
    (addr: nat) => AfterStore(op, addr, mem(addr))
  }

  predicate WordIs(mem: Plain, base: nat, word: Word4) {
    mem(base) == Some(word.b0) && mem(base + 1) == Some(word.b1) && mem(base + 2) == Some(word.b2) && mem(base + 3) == Some(word.b3)
  }

  /** The answers of the run are those of plain memory: a load that completes returns what
      memory holds, a store that completes writes its bytes, nothing else changes
      anything, and no cached access fails. */
  ghost predicate RunsAs(p: Point, mem: Plain, events: seq<Event>)
    decreases |events|
  {
    events == [] ||
      (PointOk(p) && (OkGivesActive(p.bank, p.fabric); Allowed(p.bank.config, events[0])) &&
       (OkGivesActive(p.bank, p.fabric);
        var next := After(p, events[0]);
        match events[0]
        case Clock => RunsAs(next, mem, events[1..])
        case Loading(addr, kind) =>
          var reply := LoadLine(p.bank, p.fabric, addr, kind).reply;
          !reply.Failure? && (reply.Got? ==> WordIs(mem, WordBase(p.bank.config, addr), reply.value)) &&
          RunsAs(next, mem, events[1..])
        case Storing(op, busy) =>
          var reply := StoreLine(p.bank, p.fabric, op, busy).reply;
          (Cacheable(p.bank.config, op.addr) ==> !reply.Failure?) &&
          (!reply.Failure? ==> RunsAs(next, if reply.Got? then PlainStore(mem, op) else mem, events[1..]))))
  }

  lemma LoadShows(p: Point, mem: Plain, start: nat, kind: AccessKind)
    requires PointOk(p) && Shows(p, mem) && CachesLine(p.bank.config, LineBase(p.bank.config, start))
    ensures FabricOk(p.fabric) && BurstsActive(p.bank, p.fabric)
    ensures var a := LoadLine(p.bank, p.fabric, start, kind);
            PointOk(Point(a.bank, a.fabric)) && Shows(Point(a.bank, a.fabric), mem) && !a.reply.Failure? &&
            a.bank.config == p.bank.config && (a.reply.Got? ==> WordIs(mem, WordBase(p.bank.config, start), a.reply.value))
  {
    hide BankOk, View, LoadLine, WordBase, CachesLine, LineBase, BankShape;
    OkGivesActive(p.bank, p.fabric);
    var a := LoadLine(p.bank, p.fabric, start, kind);
    LoadKeeps(p.bank, p.fabric, start, kind, 0);
    OkGivesActive(a.bank, a.fabric);
    forall addr ensures View(a.bank, a.fabric, addr) == mem(addr) {
      LoadKeeps(p.bank, p.fabric, start, kind, addr);
    }
    if a.reply.Got? {
      var base := WordBase(p.bank.config, start);
      LoadKeeps(p.bank, p.fabric, start, kind, base);
      LoadKeeps(p.bank, p.fabric, start, kind, base + 1);
      LoadKeeps(p.bank, p.fabric, start, kind, base + 2);
      LoadKeeps(p.bank, p.fabric, start, kind, base + 3);
    }
  }

  lemma StoreShows(p: Point, mem: Plain, op: StoreOp, busy: bool)
    requires PointOk(p) && Shows(p, mem) && op.width <= 4 && Fits(p.bank.config, op)
    ensures FabricOk(p.fabric) && BurstsActive(p.bank, p.fabric)
    ensures var a := StoreLine(p.bank, p.fabric, op, busy);
            PointOk(Point(a.bank, a.fabric)) && a.bank.config == p.bank.config &&
            (a.reply.Got? ==> Shows(Point(a.bank, a.fabric), PlainStore(mem, op))) &&
            (a.reply.Busy? ==> Shows(Point(a.bank, a.fabric), mem)) &&
            (Cacheable(p.bank.config, op.addr) ==> !a.reply.Failure?)
  {
    var a := (OkGivesActive(p.bank, p.fabric); StoreLine(p.bank, p.fabric, op, busy));
    StoreKeeps(p.bank, p.fabric, op, busy, 0);
    hide BankOk, View, StoreLine, Cacheable, Fits, AfterStore;
    forall addr
      ensures a.reply.Got? ==> View(a.bank, a.fabric, addr) == AfterStore(op, addr, mem(addr))
      ensures a.reply.Busy? ==> View(a.bank, a.fabric, addr) == mem(addr)
    {
      StoreKeeps(p.bank, p.fabric, op, busy, addr);
    }
  }

  lemma ClockShows(p: Point, mem: Plain)
    requires PointOk(p) && Shows(p, mem)
    ensures FabricOk(p.fabric) && PointOk(Point(p.bank, Tick(p.fabric))) && Shows(Point(p.bank, Tick(p.fabric)), mem)
  {
    OkGivesActive(p.bank, p.fabric);
    TickKeeps(p.bank, p.fabric, 0);
    hide BankOk, View, Tick;
    forall addr ensures View(p.bank, Tick(p.fabric), addr) == mem(addr) { TickKeeps(p.bank, p.fabric, addr); }
  }

  /** For every geometry, replacement, write and allocation policy, every order of calls
      and every pattern of waiting, a bank over a bus that completes its bursts answers as
      plain memory does. */
  lemma {:induction false} CacheIsTransparent(p: Point, mem: Plain, events: seq<Event>)
    requires PointOk(p) && Shows(p, mem) && forall k | 0 <= k < |events| :: Allowed(p.bank.config, events[k])
    ensures RunsAs(p, mem, events)
    decreases |events|
  {
    hide BankOk, View, LoadLine, StoreLine, Tick, WordIs, PlainStore, BankShape, CachesLine, LineBase, Fits, Cacheable, WordBase;
    if events != [] {
      OkGivesActive(p.bank, p.fabric);
      match events[0] {
        case Clock =>
          ClockShows(p, mem);
          CacheIsTransparent(After(p, events[0]), mem, events[1..]);
        case Loading(addr, kind) =>
          LoadShows(p, mem, addr, kind);
          CacheIsTransparent(After(p, events[0]), mem, events[1..]);
        case Storing(op, busy) =>
          StoreShows(p, mem, op, busy);
          var reply := StoreLine(p.bank, p.fabric, op, busy).reply;
          if !reply.Failure? {
            CacheIsTransparent(After(p, events[0]), if reply.Got? then PlainStore(mem, op) else mem, events[1..]);
          }
      }
    }
  }

  /** An empty bank over an idle fabric shows memory itself. */
  lemma FreshBankShowsMemory(c: Config, f: Fabric, addr: nat)
    requires c.Ok() && FabricOk(f) && Backed(f) && f.bursts == [] && f.accesses == [] && Readable(c, f)
    ensures BankSound(FreshBank(c), f) && (Mapped(c, f) ==> BankOk(FreshBank(c), f))
    ensures View(FreshBank(c), f, addr) == if addr in f.bytes then Some(f.bytes[addr]) else None
  {
    var b := FreshBank(c);
    assert forall s, w | 0 <= s < c.sets && 0 <= w < c.ways :: !LineAt(b, s, w).valid;
    LookupHits(b, addr);
    hide Mapped, Readable, Lookup, LineBase, SetOf, TagOf;
    OkIsSound(b, f);
  }

  /** Every call and every tick keeps the bank in order. */
  lemma EveryCallKeepsOk(p: Point, e: Event)
    requires PointOk(p) && Allowed(p.bank.config, e)
    ensures FabricOk(p.fabric) && BurstsActive(p.bank, p.fabric)
    ensures PointOk(After(p, e)) && After(p, e).bank.config == p.bank.config
  {
    OkGivesActive(p.bank, p.fabric);
    match e {
      case Clock => TickKeeps(p.bank, p.fabric, 0);
      case Loading(addr, kind) => LoadKeeps(p.bank, p.fabric, addr, kind, 0);
      case Storing(op, busy) => StoreKeeps(p.bank, p.fabric, op, busy, 0);
    }
    hide BankOk, LoadLine, StoreLine, Tick, View, CachesLine, LineBase;
  }

  /* ---------- bytes and halves ---------- */

  /** The address with its two low bits cleared. */
  function WordAddress(addr: nat): nat { addr - addr % 4 }

  function ExtractByte(word: Word4, addr: nat): Byte { word.At(addr % 4) }

  /** The low and the high byte of a half. */
  function ExtractHalf(word: Word4, addr: nat): (Byte, Byte)
    requires addr % 2 == 0
  {
    HalfOffset(addr);
    (word.At(addr % 4), word.At(addr % 4 + 1))
  }

  lemma HalfOffset(addr: nat)
    requires addr % 2 == 0
    ensures addr % 4 <= 2
  {
  }

  lemma WordOffsets(lines: nat, words: nat, off: nat)
    ensures (Times(lines, 4 * words) + off) % 4 == off % 4
    ensures off - off % 4 == 4 * (off / 4) && (off - off % 4) % 4 == 0 && (off - off % 4) / 4 == off / 4
  {
    SameWithinWord(lines, words, off);
  }

  /** A word address is in the line of its bytes, and is where its word starts. */
  lemma WordAddressIsBase(c: Config, addr: nat)
    requires c.Ok()
    ensures LineBase(c, WordAddress(addr)) == LineBase(c, addr) && WordBase(c, WordAddress(addr)) == WordAddress(addr)
  {
    var base := LineBase(c, addr);
    WordOffsets(LineNumber(c, addr), c.words, addr - base);
    assert addr % 4 == (addr - base) % 4;
    SameLine(c, addr, WordAddress(addr));
    hide Quotient, LineNumber;
  }

  /** A byte load returns the byte that can be read at its address. */
  lemma LoadedByteShows(b: Bank, f: Fabric, addr: nat)
    requires BankOk(b, f) && CachesLine(b.config, LineBase(b.config, addr))
    ensures FabricOk(f) && BurstsActive(b, f)
    ensures var a := LoadLine(b, f, WordAddress(addr), LoadAccess);
            !a.reply.Failure? && (a.reply.Got? ==> View(b, f, addr) == Some(ExtractByte(a.reply.value, addr)))
  {
    hide BankOk, View, LoadLine, LineBase, CachesLine, WordBase, FabricOk, BurstsActive, BankShape;
    OkGivesActive(b, f);
    WordAddressIsBase(b.config, addr);
    LoadKeeps(b, f, WordAddress(addr), LoadAccess, addr);
  }

  /** A half load returns the two bytes at its address and the next. */
  lemma LoadedHalfShows(b: Bank, f: Fabric, addr: nat)
    requires BankOk(b, f) && CachesLine(b.config, LineBase(b.config, addr)) && addr % 2 == 0
    ensures FabricOk(f) && BurstsActive(b, f)
    ensures var a := LoadLine(b, f, WordAddress(addr), LoadAccess);
            !a.reply.Failure? &&
            (a.reply.Got? ==> var half := ExtractHalf(a.reply.value, addr);
               View(b, f, addr) == Some(half.0) && View(b, f, addr + 1) == Some(half.1))
  {
    hide BankOk, View, LoadLine, LineBase, CachesLine, WordBase, FabricOk, BurstsActive, BankShape;
    OkGivesActive(b, f);
    WordAddressIsBase(b.config, addr);
    HalfOffset(addr);
    LoadKeeps(b, f, WordAddress(addr), LoadAccess, addr);
    LoadKeeps(b, f, WordAddress(addr), LoadAccess, addr + 1);
  }
}
