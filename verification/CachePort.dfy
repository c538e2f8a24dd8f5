/** What a cache bank relies on below it: its own burst makes progress on memory that
    nothing else is writing. */
module CachePort {
  import opened Wrappers
  import opened BusFabric
  import opened FabricProof

  /** The one burst a bank may have in the fabric. */
  datatype Mine =
    | NoBurst
    | Writing(id: nat, base: nat, words: seq<Word4>)
    | Reading(id: nat, base: nat, count: nat, kind: AccessKind)
  {
    function Request(): BurstRequest
      requires !NoBurst?
    {
      if Writing? then WriteWords(base, words) else ReadWords(base, count, kind)
    }
  }

  /** The region holds a whole line. */
  predicate Covers(region: Region, base: nat, count: nat) {
    region.start <= base && base + 4 * count <= region.start + region.size
  }

  /** Memory holds these words from `base` on. */
  predicate Holds(bytes: Bytes, base: nat, words: seq<Word4>, count: nat)
    requires count <= |words|
  {
    forall k | 0 <= k < count :: WordAt(bytes, base + 4 * k) == Some(words[k])
  }

  /** A burst of the bank that has got as far as it says. */
  predicate Progressed(f: Fabric, b: ActiveBurst, mine: Mine)
    requires BurstOk(f, b) && !mine.NoBurst?
  {
    b.id == mine.id && b.request == mine.Request() && !b.phase.Failed? &&
    Covers(f.regions[b.region], mine.base, mine.Request().Beats()) && (mine.Writing? ==> f.regions[b.region].writable) &&
    FindRegion(f.regions, mine.base) == Some(b.region) &&
    Holds(f.bytes, mine.base, if mine.Writing? then mine.words else b.readWords, b.beat)
  }

  /** Nothing but the bank's own burst writes memory. */
  ghost predicate OnlyWriter(f: Fabric, mine: Mine) {
    (forall i | 0 <= i < |f.bursts| :: f.bursts[i].request.WriteWords? ==> mine.Writing? && f.bursts[i].id == mine.id) &&
    (forall i | 0 <= i < |f.accesses| :: !f.accesses[i].request.kind.StoreAccess?)
  }

  ghost predicate Serves(f: Fabric, mine: Mine) {
    FabricOk(f) && Backed(f) && OnlyWriter(f, mine) &&
    (!mine.NoBurst? ==> BurstIndex(f, mine.id).Some? && Progressed(f, f.bursts[BurstIndex(f, mine.id).value], mine))
  }

  /** How many bytes from `base` on a bank's burst may change. */
  predicate ChangesOnly(mine: Mine, before: Fabric, after: Fabric) {
    before.regions == after.regions &&
    if mine.Writing? then SameOutside(before.bytes, after.bytes, mine.base, 4 * |mine.words|)
    else before.bytes == after.bytes
  }

  /* ---------- one beat ---------- */

  lemma BackedWord(f: Fabric, region: nat, addr: nat)
    requires Backed(f) && region < |f.regions| && HoldsWord(f.regions[region], addr)
    ensures WordAt(f.bytes, addr).Some? && LoadWord(f, region, addr) == Done(WordAt(f.bytes, addr).value)
  {
    var r := f.regions[region];
    assert r.Contains(addr + 1) && r.Contains(addr + 2);
    assert addr in f.bytes && addr + 1 in f.bytes && addr + 2 in f.bytes && addr + 3 in f.bytes;
  }

  lemma CoversBeat(region: Region, base: nat, count: nat, k: nat)
    requires Covers(region, base, count) && k < count
    ensures HoldsWord(region, base + 4 * k)
  {
  }

  lemma OneMoreWord(bytes: Bytes, base: nat, words: seq<Word4>, k: nat)
    requires k < |words| && Holds(bytes, base, words, k) && WordAt(bytes, base + 4 * k).Some?
    ensures var after := Overwritten(bytes, base + 4 * k, words[k]);
            Holds(after, base, words, k + 1) && SameOutside(bytes, after, base, 4 * |words|)
  {
    var addr := base + 4 * k;
    OverwrittenWord(bytes, addr, words[k]);
    forall j | 0 <= j < k ensures WordAt(Overwritten(bytes, addr, words[k]), base + 4 * j) == Some(words[j]) {
      OverwrittenElsewhere(bytes, addr, words[k], base + 4 * j);
    }
    hide WordAt, Overwritten;
  }

  lemma OwnWriteBeat(f: Fabric, b: ActiveBurst, mine: Mine)
    requires Backed(f) && BurstOk(f, b) && mine.Writing? && Progressed(f, b, mine) && b.beat < |mine.words|
    ensures var a := ExecuteBeat(f, b);
            a.burst == Completed(b, b.readWords) && Holds(a.bytes, mine.base, mine.words, b.beat + 1) &&
            SameOutside(f.bytes, a.bytes, mine.base, 4 * |mine.words|)
  {
    hide Holds, FindRegion, StoreWord;
    CoversBeat(f.regions[b.region], mine.base, |mine.words|, b.beat);
    BackedWord(f, b.region, mine.base + 4 * b.beat);
    StoreWordWhole(f, b.region, mine.base + 4 * b.beat, mine.words[b.beat]);
    OneMoreWord(f.bytes, mine.base, mine.words, b.beat);
  }

  lemma OwnReadBeat(f: Fabric, b: ActiveBurst, mine: Mine)
    requires Backed(f) && BurstOk(f, b) && mine.Reading? && Progressed(f, b, mine) && b.beat < mine.count
    ensures var a := ExecuteBeat(f, b);
            a.bytes == f.bytes && a.burst == Completed(b, a.burst.readWords) && |a.burst.readWords| == mine.count &&
            Holds(f.bytes, mine.base, a.burst.readWords, b.beat + 1)
  {
    hide FindRegion, LoadWord;
    CoversBeat(f.regions[b.region], mine.base, mine.count, b.beat);
    BackedWord(f, b.region, mine.base + 4 * b.beat);
  }

  /** The bank's own burst, advanced by one step. */
  lemma OwnAdvance(f: Fabric, b: ActiveBurst, mine: Mine)
    requires Backed(f) && BurstOk(f, b) && !mine.NoBurst? && Progressed(f, b, mine)
    ensures var a := AdvanceOne(f, b);
            var g := f.(bytes := a.bytes);
            BurstOk(g, a.burst) && Progressed(g, a.burst, mine) && ChangesOnly(mine, f, g) && Backed(g)
  {
    hide ExecuteBeat, Holds, FindRegion;
    if Executes(f, b) {
      if mine.Writing? {
        OwnWriteBeat(f, b, mine);
      } else {
        OwnReadBeat(f, b, mine);
      }
    }
  }

  /** Any other burst is a read and leaves memory alone. */
  lemma OtherAdvance(f: Fabric, b: ActiveBurst)
    requires BurstOk(f, b) && b.request.ReadWords?
    ensures AdvanceOne(f, b).bytes == f.bytes
  {
    hide LoadWord;
  }

  lemma OtherAccess(f: Fabric, a: ActiveAccess)
    requires a.region < |f.regions| && !a.request.kind.StoreAccess?
    ensures AdvanceAccess(f, a).0 == f.bytes && AdvanceAccess(f, a).1.request == a.request
  {
    hide ReadPhase;
  }

  /* ---------- the fabric as a whole ---------- */

  lemma {:induction false} IndexIsFirst(f: Fabric, id: nat, i: nat, from: nat)
    requires from <= i < |f.bursts| && f.bursts[i].id == id && forall k | from <= k < i :: f.bursts[k].id != id
    ensures BurstIndex(f, id, from) == Some(i)
    decreases i - from
  {
    if from < i { IndexIsFirst(f, id, i, from + 1); }
  }

  /** Replacing one burst by itself at a later stage leaves the indices alone. */
  lemma SameIndices(f: Fabric, g: Fabric, id: nat)
    requires |f.bursts| == |g.bursts| && forall k | 0 <= k < |f.bursts| :: g.bursts[k].id == f.bursts[k].id
    ensures BurstIndex(g, id) == BurstIndex(f, id)
  {
    var i := BurstIndex(f, id);
    if i.Some? {
      FirstIndex(f, id, 0);
      IndexIsFirst(g, id, i.value, 0);
    }
  }

  lemma {:induction false} FirstIndex(f: Fabric, id: nat, from: nat)
    requires from <= |f.bursts| && BurstIndex(f, id, from).Some?
    ensures forall k | from <= k < BurstIndex(f, id, from).value :: f.bursts[k].id != id
    decreases |f.bursts| - from
  {
    if f.bursts[from].id != id { FirstIndex(f, id, from + 1); }
  }

  lemma SameProgress(f: Fabric, g: Fabric, b: ActiveBurst, mine: Mine)
    requires f.regions == g.regions && f.bytes == g.bytes && BurstOk(f, b) && BurstOk(g, b) && !mine.NoBurst?
    requires Progressed(f, b, mine)
    ensures Progressed(g, b, mine)
  {
  }

  lemma AdvanceServes(f: Fabric, i: nat, mine: Mine)
    requires Serves(f, mine) && i < |f.bursts|
    ensures Serves(AdvanceBurstAt(f, i), mine) && ChangesOnly(mine, f, AdvanceBurstAt(f, i))
  {
    hide AdvanceOne, Progressed, BurstIndex;
    var b, g := f.bursts[i], AdvanceBurstAt(f, i);
    if mine.NoBurst? {
      OtherAdvance(f, b);
    } else {
      SameIndices(f, g, mine.id);
      var own := BurstIndex(f, mine.id).value;
      if i == own {
        OwnAdvance(f, b, mine);
        SameProgress(f.(bytes := g.bytes), g, g.bursts[own], mine);
      } else {
        OtherAdvance(f, b);
        SameProgress(f, g, f.bursts[own], mine);
      }
    }
  }

  lemma {:induction false} BurstsServe(f: Fabric, i: nat, mine: Mine)
    requires Serves(f, mine) && i <= |f.bursts|
    ensures Serves(AdvanceBursts(f, i), mine) && ChangesOnly(mine, f, AdvanceBursts(f, i))
    decreases |f.bursts| - i
  {
    hide Serves, AdvanceBurstAt, FabricOk;
    if i < |f.bursts| {
      ServesIsOk(f, mine);
      AdvanceServes(f, i, mine);
      SameBurstCount(f, i);
      BurstsServe(AdvanceBurstAt(f, i), i + 1, mine);
    }
  }

  lemma {:induction false} BurstsKeepIds(f: Fabric, i: nat)
    requires FabricOk(f) && i <= |f.bursts|
    ensures forall k | 0 <= k < |f.bursts| :: AdvanceBursts(f, i).bursts[k].id == f.bursts[k].id
    decreases |f.bursts| - i
  {
    if i < |f.bursts| {
      var g := AdvanceBurstAt(f, i);
      BurstsKeepIds(g, i + 1);
      assert forall k | 0 <= k < |f.bursts| :: g.bursts[k].id == f.bursts[k].id;
    }
  }

  lemma TickKeepsIndex(f: Fabric, id: nat)
    requires FabricOk(f)
    ensures BurstIndex(Tick(f), id) == BurstIndex(f, id)
  {
    BurstsKeepIds(AdvanceAccesses(f, 0), 0);
    SameIndices(f, Tick(f), id);
  }

  lemma ServesIsOk(f: Fabric, mine: Mine)
    requires Serves(f, mine)
    ensures FabricOk(f)
  {
  }

  lemma AccessServes(f: Fabric, i: nat, mine: Mine)
    requires Serves(f, mine) && i < |f.accesses|
    ensures Serves(AdvanceAccessAt(f, i), mine) && AdvanceAccessAt(f, i).bytes == f.bytes
    ensures |AdvanceAccessAt(f, i).accesses| == |f.accesses| && AdvanceAccessAt(f, i).regions == f.regions
  {
    hide AdvanceAccess, Progressed, BurstIndex;
    RegionsKnown(f, i);
    OtherAccess(f, f.accesses[i]);
    var g := AdvanceAccessAt(f, i);
    if !mine.NoBurst? {
      SameIndices(f, g, mine.id);
      SameProgress(f, g, f.bursts[BurstIndex(f, mine.id).value], mine);
    }
  }

  lemma {:induction false} AccessesServe(f: Fabric, i: nat, mine: Mine)
    requires Serves(f, mine) && i <= |f.accesses|
    ensures Serves(AdvanceAccesses(f, i), mine) && AdvanceAccesses(f, i).bytes == f.bytes
    decreases |f.accesses| - i
  {
    hide Serves, AdvanceAccessAt, FabricOk;
    if i < |f.accesses| {
      ServesIsOk(f, mine);
      AccessServes(f, i, mine);
      AccessesServe(AdvanceAccessAt(f, i), i + 1, mine);
    }
  }

  /** A tick of the fabric moves the bank's burst on and writes nothing else. */
  lemma TickServes(f: Fabric, mine: Mine)
    requires Serves(f, mine)
    ensures Serves(Tick(f), mine) && ChangesOnly(mine, f, Tick(f))
  {
    AccessesServe(f, 0, mine);
    BurstsServe(AdvanceAccesses(f, 0), 0, mine);
    hide Serves, FabricOk;
  }

  /* ---------- starting and ending a burst ---------- */

  predicate LineMapped(f: Fabric, base: nat, count: nat) {
    var r := FindRegion(f.regions, base);
    r.Some? && Covers(f.regions[r.value], base, count)
  }

  predicate LineWritable(f: Fabric, base: nat) {
    var r := FindRegion(f.regions, base);
    r.Some? && f.regions[r.value].writable
  }

  lemma {:induction false} NothingCrosses(f: Fabric, request: BurstRequest, region: nat, k: nat)
    requires Disjoint(f.regions) && region < |f.regions| && Covers(f.regions[region], request.base, request.Beats())
    requires k <= request.Beats()
    ensures CrossingBeat(f, request, region, k).None?
    decreases request.Beats() - k
  {
    if k < request.Beats() {
      RoutedToTheOnlyDevice(f.regions, request.BeatAddr(k), region);
      NothingCrosses(f, request, region, k + 1);
    }
  }

  lemma {:induction false} NewIndex(f: Fabric, b: ActiveBurst, g: Fabric, id: nat, from: nat)
    requires g.bursts == f.bursts + [b] && from <= |f.bursts|
    ensures BurstIndex(f, id, from).Some? ==> BurstIndex(g, id, from) == BurstIndex(f, id, from)
    ensures BurstIndex(f, id, from).None? && b.id == id ==> BurstIndex(g, id, from) == Some(|f.bursts|)
    decreases |f.bursts| - from
  {
    if from < |f.bursts| { NewIndex(f, b, g, id, from + 1); }
  }

  function MineFor(request: BurstRequest, id: nat): Mine {
    match request
    case WriteWords(base, words) => Writing(id, base, words)
    case ReadWords(base, count, kind) => Reading(id, base, count, kind)
  }

  lemma NoIndexYet(f: Fabric)
    requires FabricOk(f)
    ensures BurstIndex(f, f.nextId).None?
  {
  }

  lemma SubmitServes(f: Fabric, request: BurstRequest)
    requires Serves(f, NoBurst) && request.Beats() > 0 && LineMapped(f, request.base, request.Beats())
    requires request.WriteWords? ==> LineWritable(f, request.base)
    ensures var s := SubmitBurst(f, request);
            s.id == Done(f.nextId) && Serves(s.fabric, MineFor(request, f.nextId)) && s.fabric.bytes == f.bytes &&
            s.fabric.regions == f.regions
  {
    hide BurstIndex, FindRegion;
    NothingCrosses(f, request, FindRegion(f.regions, request.base).value, 1);
    hide CrossingBeat;
    NoIndexYet(f);
    var g := SubmitBurst(f, request).fabric;
    NewIndex(f, g.bursts[|f.bursts|], g, f.nextId, 0);
  }

  /** A refill answers with what memory holds; after a write-back memory holds the words. */
  predicate Answers(response: BurstResponse, mine: Mine, bytes: Bytes) {
    if response.WordsRead? then
      mine.Reading? && |response.words| == mine.count && Holds(bytes, mine.base, response.words, mine.count)
    else mine.Writing? && Holds(bytes, mine.base, mine.words, |mine.words|)
  }

  /** The bank's own burst, once ready. */
  lemma TakeServes(f: Fabric, mine: Mine)
    requires Serves(f, mine) && !mine.NoBurst? && f.bursts[BurstIndex(f, mine.id).value].phase.Ready?
    ensures var t := TakeBurst(f, mine.id);
            Serves(t.fabric, NoBurst) && t.fabric.bytes == f.bytes && t.fabric.regions == f.regions && t.response.Some? &&
            t.response.value.Done? && Answers(t.response.value.value, mine, f.bytes)
  {
    hide FindRegion;
  }

  /* ---------- other banks on the same fabric ---------- */

  lemma OtherSubmitServes(f: Fabric, mine: Mine, request: BurstRequest)
    requires Serves(f, mine) && request.ReadWords? && request.count > 0
    ensures Serves(SubmitBurst(f, request).fabric, mine) && SubmitBurst(f, request).fabric.bytes == f.bytes
  {
    hide FindRegion, CrossingBeat;
    var g := SubmitBurst(f, request).fabric;
    if g != f && !mine.NoBurst? {
      NewIndex(f, g.bursts[|f.bursts|], g, mine.id, 0);
      SameProgress(f, g, f.bursts[BurstIndex(f, mine.id).value], mine);
    }
  }

  lemma OtherTakeServes(f: Fabric, mine: Mine, id: nat)
    requires Serves(f, mine) && (!mine.NoBurst? ==> mine.id != id)
    ensures Serves(TakeBurst(f, id).fabric, mine) && TakeBurst(f, id).fabric.bytes == f.bytes
  {
    hide FindRegion;
    var g := TakeBurst(f, id).fabric;
    if g != f && !mine.NoBurst? {
      var own, i := BurstIndex(f, mine.id).value, BurstIndex(f, id).value;
      var at := if own == |f.bursts| - 1 then i else own;
      assert g.bursts[at] == f.bursts[own];
      UniqueIndex(g, at);
      SameProgress(f, g, f.bursts[own], mine);
    }
  }

  lemma UniqueIndex(g: Fabric, at: nat)
    requires FabricOk(g) && at < |g.bursts|
    ensures BurstIndex(g, g.bursts[at].id) == Some(at)
  {
    var i := BurstIndex(g, g.bursts[at].id);
  }

  /* ---------- driving a burst ---------- */

  /** A burst the lower bus had no room for is turned away; one it refuses or fails is broken. */
  datatype Drive = Blocked | Finished(response: BurstResponse) | TurnedAway | Broken(error: Error)

  datatype Driven = Driven(fabric: Fabric, burst: Option<nat>, outcome: Drive)

  /** How far a burst can still be driven within one call. */
  function DriveRank(f: Fabric, id: nat): (nat, nat)
    requires FabricOk(f) && BurstIndex(f, id).Some?
  {
    var b := f.bursts[BurstIndex(f, id).value];
    if b.phase.Ready? || b.phase.Failed? then (0, 0)
    else (b.request.Beats() - b.beat, if b.phase.Accepted? then 1 else 0)
  }

  lemma AdvanceDrives(f: Fabric, id: nat)
    requires FabricOk(f) && BurstIndex(f, id).Some? && f.bursts[BurstIndex(f, id).value].phase.Accepted?
    ensures BurstIndex(AdvanceBurst(f, id), id) == BurstIndex(f, id)
    ensures var g := AdvanceBurst(f, id);
            !g.bursts[BurstIndex(f, id).value].phase.InFlight? ==> DriveRank(g, id).0 < DriveRank(f, id).0
  {
    hide LoadWord, StoreWord;
    SameIndices(f, AdvanceBurst(f, id), id);
  }

  function DriveFrom(f: Fabric, id: nat): Driven
    requires FabricOk(f) && BurstIndex(f, id).Some?
    decreases DriveRank(f, id).0, DriveRank(f, id).1
  {
    var b := f.bursts[BurstIndex(f, id).value];
    match b.phase
    case InFlight(_) => Driven(f, Some(id), Blocked)
    case Accepted =>
      AdvanceDrives(f, id);
      var g := AdvanceBurst(f, id);
      if g.bursts[BurstIndex(g, id).value].phase.InFlight? then Driven(g, Some(id), Blocked) else DriveFrom(g, id)
    case _ =>
      var t := TakeBurst(f, id);
      match t.response.value
      case Done(response) => Driven(t.fabric, None, Finished(response))
      case Fault(e) => Driven(t.fabric, None, Broken(e))
  }

  /** `drive_burst_until_blocked`. A lower bus may have no room for a new burst. */
  function DriveBurst(f: Fabric, burst: Option<nat>, request: BurstRequest, room: bool := true): Driven
    requires FabricOk(f) && request.Beats() > 0 && (burst.Some? ==> BurstIndex(f, burst.value).Some?)
  {
    if burst.Some? then DriveFrom(f, burst.value)
    else if !room then Driven(f, None, TurnedAway)
    else
      var s := SubmitBurst(f, request);
      match s.id
      case Fault(e) => Driven(s.fabric, None, Broken(e))
      case Done(id) =>
        SubmittedIsActive(f, request);
        DriveFrom(s.fabric, id)
  }

  lemma SubmittedIsActive(f: Fabric, request: BurstRequest)
    requires FabricOk(f) && request.Beats() > 0
    ensures var s := SubmitBurst(f, request);
            s.id.Done? ==> BurstIndex(s.fabric, s.id.value).Some?
  {
    hide CrossingBeat;
    NoIndexYet(f);
    var g := SubmitBurst(f, request).fabric;
    if g != f { NewIndex(f, g.bursts[|f.bursts|], g, f.nextId, 0); }
  }

  /** What driving a bank's burst comes to. */
  ghost predicate DrivesTo(f: Fabric, mine: Mine, d: Driven)
    requires !mine.NoBurst?
  {
    ChangesOnly(mine, f, d.fabric) &&
    match d.outcome
    case Blocked => d.burst == Some(mine.id) && Serves(d.fabric, mine)
    case TurnedAway => false
    case Broken(_) => false
    case Finished(response) =>
      d.burst.None? && Serves(d.fabric, NoBurst) && Answers(response, mine, d.fabric.bytes)
  }

  lemma {:induction false} DriveServes(f: Fabric, mine: Mine)
    requires !mine.NoBurst? && Serves(f, mine)
    ensures DrivesTo(f, mine, DriveFrom(f, mine.id))
    decreases DriveRank(f, mine.id).0, DriveRank(f, mine.id).1
  {
    var b := f.bursts[BurstIndex(f, mine.id).value];
    if b.phase.Accepted? {
      AdvanceDrives(f, mine.id);
      var g := AdvanceBurst(f, mine.id);
      AdvanceServes(f, BurstIndex(f, mine.id).value, mine);
      hide Serves, AdvanceBurst, Holds, TakeBurst;
      if !g.bursts[BurstIndex(g, mine.id).value].phase.InFlight? { DriveServes(g, mine); }
    } else if b.phase.Ready? {
      TakeServes(f, mine);
    }
  }

  /** What `drive_burst_until_blocked` comes to for a bank's burst. */
  ghost predicate DroveTo(f: Fabric, request: BurstRequest, d: Driven) {
    d.fabric.regions == f.regions &&
    (if request.WriteWords? then SameOutside(f.bytes, d.fabric.bytes, request.base, 4 * |request.words|)
     else d.fabric.bytes == f.bytes) &&
    match d.outcome
    case Blocked => d.burst.Some? && Serves(d.fabric, MineFor(request, d.burst.value))
    case TurnedAway => false
    case Broken(_) => false
    case Finished(response) =>
      d.burst.None? && Serves(d.fabric, NoBurst) && Answers(response, MineFor(request, 0), d.fabric.bytes)
  }

  lemma DriveBurstServes(f: Fabric, burst: Option<nat>, request: BurstRequest)
    requires request.Beats() > 0 && LineMapped(f, request.base, request.Beats())
    requires burst.None? && request.WriteWords? ==> LineWritable(f, request.base)
    requires Serves(f, if burst.Some? then MineFor(request, burst.value) else NoBurst)
    ensures DroveTo(f, request, DriveBurst(f, burst, request))
  {
    hide Serves, Holds, FindRegion, DriveFrom, SubmitBurst;
    if burst.Some? {
      ServesHasBurst(f, MineFor(request, burst.value));
      DriveServes(f, MineFor(request, burst.value));
    } else {
      ServesIsOk(f, NoBurst);
      SubmitServes(f, request);
      var g := SubmitBurst(f, request).fabric;
      ServesHasBurst(g, MineFor(request, f.nextId));
      DriveServes(g, MineFor(request, f.nextId));
    }
  }

  lemma ServesHasBurst(f: Fabric, mine: Mine)
    requires Serves(f, mine)
    ensures FabricOk(f) && (!mine.NoBurst? ==> BurstIndex(f, mine.id).Some?)
  {
  }
}
