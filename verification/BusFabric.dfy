/** The transaction and burst fabric of the memory map. Devices are plain memories; their
    regions do not overlap, so all their bytes are kept in one map. */
module BusFabric {
  import opened Wrappers

  type Byte = b: nat | b < 256

  /** A 32-bit word as its four bytes, lowest address first. */
  datatype Word4 = Word4(b0: Byte, b1: Byte, b2: Byte, b3: Byte) {
    function At(k: nat): Byte
      requires k < 4
    {
      if k == 0 then b0 else if k == 1 then b1 else if k == 2 then b2 else b3
    }

    function With(k: nat, b: Byte): Word4
      requires k < 4
    {
      if k == 0 then Word4(b, b1, b2, b3) else if k == 1 then Word4(b0, b, b2, b3)
      else if k == 2 then Word4(b0, b1, b, b3) else Word4(b0, b1, b2, b)
    }
  }

  const ZERO_WORD: Word4 := Word4(0, 0, 0, 0)

  function ZeroWords(count: nat): (words: seq<Word4>)
    ensures |words| == count
  {
    seq(count, (i: nat) => ZERO_WORD)
  }

  datatype AccessKind = FetchAccess | LoadAccess | StoreAccess

  datatype Region = Region(start: nat, size: nat, writable: bool) {
    predicate Contains(addr: nat) { start <= addr < start + size }
    predicate Overlaps(other: Region) { start < other.start + other.size && other.start < start + size }
  }

  type Bytes = map<nat, Byte>

  datatype Error = Unmapped(addr: nat) | ReadOnlyAt(addr: nat) | CrossesDevice(addr: nat) | Unsupported(addr: nat)
    | Mismatched(addr: nat)

  datatype Outcome<T> = Done(value: T) | Fault(error: Error)

  datatype BurstRequest = ReadWords(base: nat, count: nat, kind: AccessKind) | WriteWords(base: nat, words: seq<Word4>) {
    function Beats(): nat { if ReadWords? then count else |words| }
    function BeatAddr(k: nat): nat { base + 4 * k }
    function BeatKind(): AccessKind { if ReadWords? then kind else StoreAccess }
  }

  /** A single access; `width` bytes of `data` are written by a store. */
  datatype AccessRequest = AccessRequest(addr: nat, kind: AccessKind, width: nat, data: Word4)

  datatype AccessResponse = BytesRead(data: Word4, width: nat) | WriteComplete

  datatype AccessPhase = Waiting | Underway(cycles: nat) | Answered(response: AccessResponse) | Refused(error: Error)

  datatype ActiveAccess = ActiveAccess(id: nat, region: nat, request: AccessRequest, phase: AccessPhase)

  datatype BurstResponse = WordsRead(words: seq<Word4>) | WordsWritten(beats: nat)

  datatype BurstPhase = Accepted | InFlight(cycles: nat) | Ready | Failed(error: Error)

  /** A burst holds one word of result for each beat. */
  datatype ActiveBurst = ActiveBurst(
    id: nat, region: nat, request: BurstRequest, beat: nat, readWords: seq<Word4>, phase: BurstPhase)

  datatype Fabric = Fabric(
    regions: seq<Region>, latency: (nat, nat, AccessKind) -> nat, bytes: Bytes,
    accesses: seq<ActiveAccess>, bursts: seq<ActiveBurst>, nextId: nat)

  /* ---------- devices ---------- */

  /** The first region holding an address, counting from `from`. */
  function FindRegion(regions: seq<Region>, addr: nat, from: nat := 0): (r: Option<nat>)
    requires from <= |regions|
    ensures r.Some? ==> from <= r.value < |regions| && regions[r.value].Contains(addr)
    ensures r.Some? ==> forall k | from <= k < r.value :: !regions[k].Contains(addr)
    ensures r.None? ==> forall k | from <= k < |regions| :: !regions[k].Contains(addr)
    decreases |regions| - from
  {
    if from == |regions| then None
    else if regions[from].Contains(addr) then Some(from)
    else FindRegion(regions, addr, from + 1)
  }

  predicate Disjoint(regions: seq<Region>) {
    forall i, k | 0 <= i < k < |regions| :: !regions[i].Overlaps(regions[k])
  }

  /** `map_device` refuses a region that overlaps one already mapped. */
  function MapRegion(f: Fabric, region: Region, contents: Bytes): Option<Fabric> {
    if exists k | 0 <= k < |f.regions| :: f.regions[k].Overlaps(region) then None
    else Some(f.(regions := f.regions + [region], bytes := f.bytes + contents))
  }

  /** Mapping keeps regions disjoint, so an address has one device, and leaves the
      devices already mapped alone. */
  lemma MapKeepsDisjoint(f: Fabric, region: Region, contents: Bytes)
    requires Disjoint(f.regions) && MapRegion(f, region, contents).Some?
    requires forall a | a in contents :: region.Contains(a)
    ensures Disjoint(MapRegion(f, region, contents).value.regions)
    ensures forall k, a | 0 <= k < |f.regions| && f.regions[k].Contains(a) && a in f.bytes ::
      a in MapRegion(f, region, contents).value.bytes && MapRegion(f, region, contents).value.bytes[a] == f.bytes[a]
  {
  }

  /** Routing finds the only device that contains the address. */
  lemma RoutedToTheOnlyDevice(regions: seq<Region>, addr: nat, k: nat)
    requires Disjoint(regions) && k < |regions| && regions[k].Contains(addr)
    ensures FindRegion(regions, addr) == Some(k)
  {
    var r := FindRegion(regions, addr);
    if r != Some(k) {
      assert regions[r.value].Overlaps(regions[k]) && regions[k].Overlaps(regions[r.value]);
    }
  }

  /** Every mapped address has a byte. */
  ghost predicate Backed(f: Fabric) {
    forall k, a | 0 <= k < |f.regions| && f.regions[k].Contains(a) :: a in f.bytes
  }

  function LoadByte(f: Fabric, region: nat, addr: nat): Outcome<Byte>
    requires region < |f.regions|
  {
    if f.regions[region].Contains(addr) && addr in f.bytes then Done(f.bytes[addr]) else Fault(Unmapped(addr))
  }

  function StoreByte(f: Fabric, region: nat, addr: nat, value: Byte): Outcome<Bytes>
    requires region < |f.regions|
  {
    if !f.regions[region].Contains(addr) then Fault(Unmapped(addr))
    else if !f.regions[region].writable then Fault(ReadOnlyAt(addr))
    else Done(f.bytes[addr := value])
  }

  function LoadWord(f: Fabric, region: nat, addr: nat): Outcome<Word4>
    requires region < |f.regions|
  {
    match (LoadByte(f, region, addr), LoadByte(f, region, addr + 1),
           LoadByte(f, region, addr + 2), LoadByte(f, region, addr + 3))
    case (Done(b0), Done(b1), Done(b2), Done(b3)) => Done(Word4(b0, b1, b2, b3))
    case (Fault(e), _, _, _) => Fault(e)
    case (_, Fault(e), _, _) => Fault(e)
    case (_, _, Fault(e), _) => Fault(e)
    case (_, _, _, Fault(e)) => Fault(e)
  }

  datatype Stored = Stored(bytes: Bytes, fault: Option<Error>)

  /** Bytes are stored one by one, up to the first that the device refuses. */
  function StoreFrom(f: Fabric, region: nat, addr: nat, word: Word4, k: nat, width: nat): Stored
    requires region < |f.regions| && k <= width <= 4
    decreases width - k
  {
    if k == width then Stored(f.bytes, None)
    else
      match StoreByte(f, region, addr + k, word.At(k))
      case Fault(e) => Stored(f.bytes, Some(e))
      case Done(bytes) => StoreFrom(f.(bytes := bytes), region, addr, word, k + 1, width)
  }

  function StoreWord(f: Fabric, region: nat, addr: nat, word: Word4): Stored
    requires region < |f.regions|
  {
    StoreFrom(f, region, addr, word, 0, 4)
  }

  /** The four bytes at an address, where all are mapped. */
  function WordAt(bytes: Bytes, addr: nat): Option<Word4> {
    if addr in bytes && addr + 1 in bytes && addr + 2 in bytes && addr + 3 in bytes
    then Some(Word4(bytes[addr], bytes[addr + 1], bytes[addr + 2], bytes[addr + 3])) else None
  }

  function Overwritten(bytes: Bytes, addr: nat, word: Word4): Bytes {
    bytes[addr := word.b0][addr + 1 := word.b1][addr + 2 := word.b2][addr + 3 := word.b3]
  }

  /** Nothing but the `length` bytes from `base` on differs. */
  predicate SameOutside(before: Bytes, after: Bytes, base: nat, length: nat) {
    before.Keys == after.Keys && forall a | a in before && !(base <= a < base + length) :: after[a] == before[a]
  }

  lemma OverwrittenWord(bytes: Bytes, addr: nat, word: Word4)
    requires WordAt(bytes, addr).Some?
    ensures WordAt(Overwritten(bytes, addr, word), addr) == Some(word)
    ensures SameOutside(bytes, Overwritten(bytes, addr, word), addr, 4)
  {
  }

  lemma OverwrittenElsewhere(bytes: Bytes, addr: nat, word: Word4, other: nat)
    requires WordAt(bytes, addr).Some? && (other + 4 <= addr || addr + 4 <= other)
    ensures WordAt(Overwritten(bytes, addr, word), other) == WordAt(bytes, other)
  {
  }

  /** The region holds the whole word. */
  predicate HoldsWord(region: Region, addr: nat) { region.Contains(addr) && region.Contains(addr + 3) }

  lemma StoreWordWhole(f: Fabric, region: nat, addr: nat, word: Word4)
    requires region < |f.regions| && HoldsWord(f.regions[region], addr) && f.regions[region].writable
    ensures StoreWord(f, region, addr, word) == Stored(Overwritten(f.bytes, addr, word), None)
  {
    var f1 := f.(bytes := f.bytes[addr := word.b0]);
    var f2 := f1.(bytes := f1.bytes[addr + 1 := word.b1]);
    var f3 := f2.(bytes := f2.bytes[addr + 2 := word.b2]);
    var f4 := f3.(bytes := f3.bytes[addr + 3 := word.b3]);
    assert StoreFrom(f4, region, addr, word, 4, 4) == Stored(f4.bytes, None);
    assert StoreFrom(f3, region, addr, word, 3, 4) == Stored(f4.bytes, None);
    assert StoreFrom(f2, region, addr, word, 2, 4) == Stored(f4.bytes, None);
    assert StoreFrom(f1, region, addr, word, 1, 4) == Stored(f4.bytes, None);
  }

  /** Devices act by their regions and bytes alone. */
  lemma {:induction false} StoreFromByRegions(f: Fabric, g: Fabric, region: nat, addr: nat, word: Word4, k: nat, width: nat)
    requires f.regions == g.regions && f.bytes == g.bytes && region < |f.regions| && k <= width <= 4
    ensures StoreFrom(f, region, addr, word, k, width) == StoreFrom(g, region, addr, word, k, width)
    decreases width - k
  {
    if k < width {
      match StoreByte(f, region, addr + k, word.At(k)) {
        case Fault(_) =>
        case Done(bytes) => StoreFromByRegions(f.(bytes := bytes), g.(bytes := bytes), region, addr, word, k + 1, width);
      }
    }
  }

  /* ---------- one burst ---------- */

  predicate BurstOk(f: Fabric, b: ActiveBurst) {
    b.region < |f.regions| && b.beat <= b.request.Beats() && |b.readWords| == b.request.Beats() &&
    (b.phase.Ready? <==> b.beat == b.request.Beats()) && (b.phase.InFlight? ==> b.phase.cycles > 0)
  }

  datatype Advanced = Advanced(bytes: Bytes, burst: ActiveBurst)

  function Completed(b: ActiveBurst, readWords: seq<Word4>): ActiveBurst {
    b.(beat := b.beat + 1, readWords := readWords, phase := if b.beat + 1 == b.request.Beats() then Ready else Accepted)
  }

  /** `execute_burst_beat` and what it leaves of the burst. */
  function ExecuteBeat(f: Fabric, b: ActiveBurst): Advanced
    requires BurstOk(f, b) && b.beat < b.request.Beats()
  {
    var addr := b.request.BeatAddr(b.beat);
    match b.request
    case ReadWords(_, _, _) =>
      (match LoadWord(f, b.region, addr)
       case Fault(e) => Advanced(f.bytes, b.(phase := Failed(e)))
       case Done(w) => Advanced(f.bytes, Completed(b, b.readWords[b.beat := w])))
    case WriteWords(_, words) =>
      var s := StoreWord(f, b.region, addr, words[b.beat]);
      Advanced(s.bytes, if s.fault.Some? then b.(phase := Failed(s.fault.value)) else Completed(b, b.readWords))
  }

  /** Whether advancing this burst now executes its beat. */
  predicate Executes(f: Fabric, b: ActiveBurst) {
    match b.phase
    case Accepted => f.latency(b.region, b.request.BeatAddr(b.beat), b.request.BeatKind()) == 0
    case InFlight(cycles) => cycles <= 1
    case _ => false
  }

  /** `advance_burst_at` on one burst. */
  function AdvanceOne(f: Fabric, b: ActiveBurst): (a: Advanced)
    requires BurstOk(f, b)
    ensures a.burst.id == b.id && a.burst.region == b.region && a.burst.request == b.request
    ensures BurstOk(f, a.burst)
  {
    if Executes(f, b) then ExecuteBeat(f, b)
    else
      match b.phase
      case Accepted =>
        Advanced(f.bytes, b.(phase := InFlight(f.latency(b.region, b.request.BeatAddr(b.beat), b.request.BeatKind()))))
      case InFlight(cycles) => Advanced(f.bytes, b.(phase := InFlight(cycles - 1)))
      case _ => Advanced(f.bytes, b)
  }

  /* ---------- one access ---------- */

  function ExecuteAccess(f: Fabric, a: ActiveAccess): (Bytes, AccessPhase)
    requires a.region < |f.regions|
  {
    var r := a.request;
    if (r.width != 1 && r.width != 2 && r.width != 4) || (r.kind.FetchAccess? && r.width != 4) then
      (f.bytes, Refused(Unsupported(r.addr)))
    else if r.kind.StoreAccess? then
      var s := StoreFrom(f, a.region, r.addr, r.data, 0, r.width);
      (s.bytes, if s.fault.Some? then Refused(s.fault.value) else Answered(WriteComplete))
    else (f.bytes, ReadPhase(f, a.region, r.addr, r.width))
  }

  /** The bytes read, the rest of the word zero. */
  function ReadPhase(f: Fabric, region: nat, addr: nat, width: nat): AccessPhase
    requires region < |f.regions|
  {
    match LoadByte(f, region, addr)
    case Fault(e) => Refused(e)
    case Done(b0) =>
      if width == 1 then Answered(BytesRead(Word4(b0, 0, 0, 0), 1))
      else if width == 4 then
        match LoadWord(f, region, addr)
        case Fault(e) => Refused(e)
        case Done(w) => Answered(BytesRead(w, 4))
      else
        match LoadByte(f, region, addr + 1)
        case Fault(e) => Refused(e)
        case Done(b1) => Answered(BytesRead(Word4(b0, b1, 0, 0), 2))
  }

  /** `advance_transaction_at` on one access. */
  function AdvanceAccess(f: Fabric, a: ActiveAccess): (Bytes, ActiveAccess)
    requires a.region < |f.regions|
  {
    match a.phase
    case Waiting =>
      var cycles := f.latency(a.region, a.request.addr, a.request.kind);
      if cycles == 0 then var (bytes, phase) := ExecuteAccess(f, a); (bytes, a.(phase := phase))
      else (f.bytes, a.(phase := Underway(cycles)))
    case Underway(cycles) =>
      if cycles > 1 then (f.bytes, a.(phase := Underway(cycles - 1)))
      else var (bytes, phase) := ExecuteAccess(f, a); (bytes, a.(phase := phase))
    case _ => (f.bytes, a)
  }

  /* ---------- the fabric ---------- */

  predicate FabricOk(f: Fabric) {
    Disjoint(f.regions) &&
    (forall i | 0 <= i < |f.bursts| :: BurstOk(f, f.bursts[i]) && f.bursts[i].id < f.nextId) &&
    (forall i | 0 <= i < |f.accesses| :: f.accesses[i].region < |f.regions| && f.accesses[i].id < f.nextId) &&
    (forall i, k | 0 <= i < k < |f.bursts| :: f.bursts[i].id != f.bursts[k].id) &&
    (forall i, k | 0 <= i < k < |f.accesses| :: f.accesses[i].id != f.accesses[k].id) &&
    (forall i, k | 0 <= i < |f.bursts| && 0 <= k < |f.accesses| :: f.bursts[i].id != f.accesses[k].id)
  }

  function AdvanceBurstAt(f: Fabric, i: nat): (g: Fabric)
    requires FabricOk(f) && i < |f.bursts|
    ensures FabricOk(g)
  {
    var a := AdvanceOne(f, f.bursts[i]);
    f.(bytes := a.bytes, bursts := f.bursts[i := a.burst])
  }

  function AdvanceAccessAt(f: Fabric, i: nat): (g: Fabric)
    requires FabricOk(f) && i < |f.accesses|
    ensures FabricOk(g)
  {
    var (bytes, a) := AdvanceAccess(f, f.accesses[i]);
    f.(bytes := bytes, accesses := f.accesses[i := a])
  }

  function AdvanceAccesses(f: Fabric, i: nat): (g: Fabric)
    requires FabricOk(f) && i <= |f.accesses|
    ensures FabricOk(g) && g.bursts == f.bursts && g.regions == f.regions && g.nextId == f.nextId && g.latency == f.latency
    decreases |f.accesses| - i
  {
    if i == |f.accesses| then f else AdvanceAccesses(AdvanceAccessAt(f, i), i + 1)
  }

  function AdvanceBursts(f: Fabric, i: nat): (g: Fabric)
    requires FabricOk(f) && i <= |f.bursts|
    ensures FabricOk(g) && |g.bursts| == |f.bursts| && g.accesses == f.accesses && g.regions == f.regions
    ensures g.nextId == f.nextId && g.latency == f.latency
    ensures forall k | 0 <= k < i :: g.bursts[k] == f.bursts[k]
    decreases |f.bursts| - i
  {
    if i == |f.bursts| then f else AdvanceBursts(AdvanceBurstAt(f, i), i + 1)
  }

  /** `tick`: every access in turn, then every burst in turn. */
  function Tick(f: Fabric): (g: Fabric)
    requires FabricOk(f)
    ensures FabricOk(g)
  {
    AdvanceBursts(AdvanceAccesses(f, 0), 0)
  }

  /** Remove element i, putting the last one in its place. */
  function SwapRemove<T>(s: seq<T>, i: nat): (r: seq<T>)
    requires i < |s|
    ensures |r| == |s| - 1
    ensures forall k | 0 <= k < |r| :: r[k] == if k == i then s[|s| - 1] else s[k]
  {
    if i == |s| - 1 then s[..i] else s[..|s| - 1][i := s[|s| - 1]]
  }

  function BurstIndex(f: Fabric, id: nat, from: nat := 0): (r: Option<nat>)
    requires from <= |f.bursts|
    ensures r.Some? ==> from <= r.value < |f.bursts| && f.bursts[r.value].id == id
    ensures r.None? ==> forall k | from <= k < |f.bursts| :: f.bursts[k].id != id
    decreases |f.bursts| - from
  {
    if from == |f.bursts| then None else if f.bursts[from].id == id then Some(from) else BurstIndex(f, id, from + 1)
  }

  function AccessIndex(f: Fabric, id: nat, from: nat := 0): (r: Option<nat>)
    requires from <= |f.accesses|
    ensures r.Some? ==> from <= r.value < |f.accesses| && f.accesses[r.value].id == id
    ensures r.None? ==> forall k | from <= k < |f.accesses| :: f.accesses[k].id != id
    decreases |f.accesses| - from
  {
    if from == |f.accesses| then None else if f.accesses[from].id == id then Some(from) else AccessIndex(f, id, from + 1)
  }

  /** Every beat of a burst must be routed to the device of the first. */
  function CrossingBeat(f: Fabric, request: BurstRequest, region: nat, k: nat): Option<nat>
    requires k <= request.Beats()
    decreases request.Beats() - k
  {
    if k == request.Beats() then None
    else if FindRegion(f.regions, request.BeatAddr(k)) != Some(region) then Some(k)
    else CrossingBeat(f, request, region, k + 1)
  }

  datatype Submitted = Submitted(fabric: Fabric, id: Outcome<nat>)

  function SubmitBurst(f: Fabric, request: BurstRequest): (s: Submitted)
    requires FabricOk(f) && request.Beats() > 0
    ensures FabricOk(s.fabric)
  {
    var region := FindRegion(f.regions, request.BeatAddr(0));
    if region.None? then Submitted(f, Fault(Unmapped(request.base)))
    else
      var crossing := CrossingBeat(f, request, region.value, 1);
      if crossing.Some? then Submitted(f, Fault(CrossesDevice(request.BeatAddr(crossing.value))))
      else
        Submitted(f.(nextId := f.nextId + 1,
                     bursts := f.bursts + [ActiveBurst(f.nextId, region.value, request, 0,
                                                       ZeroWords(request.Beats()), Accepted)]),
                  Done(f.nextId))
  }

  function SubmitAccess(f: Fabric, request: AccessRequest): (s: Submitted)
    requires FabricOk(f)
    ensures FabricOk(s.fabric)
  {
    var region := FindRegion(f.regions, request.addr);
    if region.None? then Submitted(f, Fault(Unmapped(request.addr)))
    else Submitted(f.(nextId := f.nextId + 1,
                      accesses := f.accesses + [ActiveAccess(f.nextId, region.value, request, Waiting)]),
                   Done(f.nextId))
  }

  datatype Taken<T> = Taken(fabric: Fabric, response: Option<Outcome<T>>)

  function ResponseOf(b: ActiveBurst): BurstResponse {
    if b.request.ReadWords? then WordsRead(b.readWords) else WordsWritten(b.request.Beats())
  }

  function TakeBurst(f: Fabric, id: nat): (t: Taken<BurstResponse>)
    requires FabricOk(f)
    ensures FabricOk(t.fabric)
  {
    var i := BurstIndex(f, id);
    if i.None? then Taken(f, None)
    else
      var b := f.bursts[i.value];
      if b.phase.Ready? then Taken(f.(bursts := SwapRemove(f.bursts, i.value)), Some(Done(ResponseOf(b))))
      else if b.phase.Failed? then Taken(f.(bursts := SwapRemove(f.bursts, i.value)), Some(Fault(b.phase.error)))
      else Taken(f, None)
  }

  function TakeAccess(f: Fabric, id: nat): (t: Taken<AccessResponse>)
    requires FabricOk(f)
    ensures FabricOk(t.fabric)
  {
    var i := AccessIndex(f, id);
    if i.None? then Taken(f, None)
    else
      var a := f.accesses[i.value];
      if a.phase.Answered? then Taken(f.(accesses := SwapRemove(f.accesses, i.value)), Some(Done(a.phase.response)))
      else if a.phase.Refused? then Taken(f.(accesses := SwapRemove(f.accesses, i.value)), Some(Fault(a.phase.error)))
      else Taken(f, None)
  }

  function AdvanceBurst(f: Fabric, id: nat): (g: Fabric)
    requires FabricOk(f)
    ensures FabricOk(g)
  {
    var i := BurstIndex(f, id);
    if i.Some? then AdvanceBurstAt(f, i.value) else f
  }

  lemma RegionsKnown(f: Fabric, i: nat)
    requires FabricOk(f) && i < |f.accesses|
    ensures f.accesses[i].region < |f.regions|
  {
  }

  lemma SameBurstCount(f: Fabric, i: nat)
    requires FabricOk(f) && i < |f.bursts|
    ensures |AdvanceBurstAt(f, i).bursts| == |f.bursts|
  {
  }

  /* ---------- the memory map updated in place ---------- */

  class MemoryMap {
    const latency: (nat, nat, AccessKind) -> nat
    var regions: seq<Region>
    var bytes: Bytes
    var accesses: seq<ActiveAccess>
    var bursts: seq<ActiveBurst>
    var nextId: nat

    ghost function State(): Fabric
      reads this
    {
      Fabric.Fabric(regions, latency, bytes, accesses, bursts, nextId)
    }

    constructor (delay: (nat, nat, AccessKind) -> nat)
      ensures State() == Fabric.Fabric([], delay, map[], [], [], 0) && FabricOk(State())
    {
      latency := delay;
      regions, bytes, accesses, bursts, nextId := [], map[], [], [], 0;
    }

    method Locate(addr: nat) returns (region: Option<nat>)
      ensures region == FindRegion(regions, addr)
    {
      var k := 0;
      while k < |regions|
        invariant k <= |regions| && FindRegion(regions, addr) == FindRegion(regions, addr, k)
      {
        if regions[k].Contains(addr) { return Some(k); }
        k := k + 1;
      }
      region := None;
    }

    method Submit(request: BurstRequest) returns (id: Outcome<nat>)
      requires FabricOk(State()) && request.Beats() > 0
      modifies this`bursts, this`nextId
      ensures Submitted(State(), id) == SubmitBurst(old(State()), request)
    {
      var region := Locate(request.BeatAddr(0));
      if region.None? { return Fault(Unmapped(request.base)); }
      var k := 1;
      while k < request.Beats()
        invariant 1 <= k <= request.Beats() && State() == old(State())
        invariant CrossingBeat(State(), request, region.value, 1) == CrossingBeat(State(), request, region.value, k)
      {
        var other := Locate(request.BeatAddr(k));
        if other != region { return Fault(CrossesDevice(request.BeatAddr(k))); }
        k := k + 1;
      }
      id := Done(nextId);
      bursts := bursts + [ActiveBurst(nextId, region.value, request, 0, ZeroWords(request.Beats()), Accepted)];
      nextId := nextId + 1;
    }

    /** `advance_burst_at`: the burst and, when a beat executes, memory. */
    method AdvanceBurst(index: nat)
      requires FabricOk(State()) && index < |bursts|
      modifies this`bursts, this`bytes
      ensures State() == AdvanceBurstAt(old(State()), index)
    {
      var b := bursts[index];
      var total, addr := b.request.Beats(), b.request.BeatAddr(b.beat);
      var executes := false;
      match b.phase {
        case Accepted =>
          var cycles := latency(b.region, addr, b.request.BeatKind());
          if cycles == 0 { executes := true; } else { b := b.(phase := InFlight(cycles)); }
        case InFlight(cycles) =>
          if cycles > 1 { b := b.(phase := InFlight(cycles - 1)); } else { executes := true; }
        case _ =>
      }
      if executes {
        var fault := None;
        if b.request.ReadWords? {
          match LoadWord(Fabric.Fabric(regions, latency, bytes, accesses, bursts, nextId), b.region, addr) {
            case Fault(e) => fault := Some(e);
            case Done(word) => b := b.(readWords := b.readWords[b.beat := word]);
          }
        } else {
          var stored := StoreWord(Fabric.Fabric(regions, latency, bytes, accesses, bursts, nextId), b.region, addr,
                                  b.request.words[b.beat]);
          bytes, fault := stored.bytes, stored.fault;
        }
        if fault.Some? {
          b := b.(phase := Failed(fault.value));
        } else {
          b := b.(beat := b.beat + 1);
          b := b.(phase := if b.beat == total then Ready else Accepted);
        }
      }
      bursts := bursts[index := b];
    }

    method ClockAccesses()
      requires FabricOk(State())
      modifies this`accesses, this`bytes
      ensures State() == AdvanceAccesses(old(State()), 0) && FabricOk(State())
    {
      hide AdvanceAccess, FabricOk;
      ghost var start := State();
      var i := 0;
      while i < |accesses|
        invariant i <= |accesses| && FabricOk(State()) && AdvanceAccesses(State(), i) == AdvanceAccesses(start, 0)
        invariant regions == start.regions && nextId == start.nextId && bursts == start.bursts
      {
        ghost var before := State();
        RegionsKnown(before, i);
        var advanced := AdvanceAccess(Fabric.Fabric(regions, latency, bytes, accesses, bursts, nextId), accesses[i]);
        bytes, accesses := advanced.0, accesses[i := advanced.1];
        assert State() == AdvanceAccessAt(before, i);
        i := i + 1;
      }
    }

    method ClockBursts()
      requires FabricOk(State())
      modifies this`bursts, this`bytes
      ensures State() == AdvanceBursts(old(State()), 0)
    {
      hide AdvanceBurstAt, FabricOk;
      ghost var start := State();
      var i := 0;
      while i < |bursts|
        invariant i <= |bursts| && FabricOk(State()) && AdvanceBursts(State(), i) == AdvanceBursts(start, 0)
      {
        SameBurstCount(State(), i);
        AdvanceBurst(i);
        i := i + 1;
      }
    }

    method Clock()
      requires FabricOk(State())
      modifies this`accesses, this`bursts, this`bytes
      ensures State() == Tick(old(State()))
    {
      ClockAccesses();
      ClockBursts();
    }

    method IndexOf(id: nat) returns (index: Option<nat>)
      requires FabricOk(State())
      ensures index == BurstIndex(State(), id)
    {
      var i := 0;
      while i < |bursts|
        invariant i <= |bursts| && BurstIndex(State(), id) == BurstIndex(State(), id, i)
      {
        if bursts[i].id == id { return Some(i); }
        i := i + 1;
      }
      index := None;
    }

    method Take(id: nat) returns (response: Option<Outcome<BurstResponse>>)
      requires FabricOk(State())
      modifies this`bursts
      ensures Taken(State(), response) == TakeBurst(old(State()), id)
    {
      var i := 0;
      while i < |bursts| && bursts[i].id != id
        invariant i <= |bursts| && BurstIndex(State(), id) == BurstIndex(State(), id, i)
      {
        i := i + 1;
      }
      if i == |bursts| { return None; }
      var b := bursts[i];
      if b.phase.Ready? {
        response := Some(Done(ResponseOf(b)));
      } else if b.phase.Failed? {
        response := Some(Fault(b.phase.error));
      } else {
        return None;
      }
      // The last burst takes the place of the one removed.
      if i == |bursts| - 1 { bursts := bursts[..i]; } else { bursts := bursts[..|bursts| - 1][i := bursts[|bursts| - 1]]; }
    }
  }
}
