/** Software write-back of an address range through a cache in front of the memory map. */
module Maintenance {
  import opened Wrappers
  import opened BusFabric
  import opened CachePort
  import opened Cache
  import opened CacheProof
  import opened SplitL1

  /* ---------- the lines of a range ---------- */

  /** The line bases from `base` up to and including the first that is not below `end`. */
  function BasesFrom(c: Config, base: nat, end: nat): seq<nat>
    requires c.Ok()
    decreases if base < end then end - base else 0
  {
    [base] + (if base >= end then [] else BasesFrom(c, base + c.LineSize(), end))
  }

  /** `line_bases_for_range`. */
  function LineBases(c: Config, start: nat, length: nat): seq<nat>
    requires c.Ok()
  {
    if length == 0 then [] else BasesFrom(c, LineBase(c, start), start + length - 1)
  }

  lemma {:induction false} BasesCover(c: Config, base: nat, end: nat, addr: nat)
    requires c.Ok() && LineBase(c, base) == base && base <= addr <= end
    ensures LineBase(c, addr) in BasesFrom(c, base, end)
    decreases if base < end then end - base else 0
  {
    SameLine(c, base, addr);
    if addr >= base + c.LineSize() {
      NextLine(c, base);
      BasesCover(c, base + c.LineSize(), end, addr);
    }
  }

  /** Every address of the range lies in a listed line. */
  lemma RangeIsCovered(c: Config, start: nat, length: nat, addr: nat)
    requires c.Ok() && start <= addr < start + length
    ensures LineBase(c, addr) in LineBases(c, start, length)
  {
    BaseDecodes(c, start);
    BasesCover(c, LineBase(c, start), start + length - 1, addr);
  }

  lemma {:induction false} LastBase(c: Config, base: nat, end: nat)
    requires c.Ok() && LineBase(c, base) == base && base <= end
    ensures var bases := BasesFrom(c, base, end);
            bases[|bases| - 1] == if LineBase(c, end) == end then end else LineBase(c, end) + c.LineSize()
    decreases end - base
  {
    SameLine(c, base, end);
    if base < end {
      NextLine(c, base);
      if base + c.LineSize() <= end {
        LastBase(c, base + c.LineSize(), end);
      } else {
        assert BasesFrom(c, base + c.LineSize(), end) == [base + c.LineSize()];
        SameLine(c, end, base);
      }
    }
  }

  /** The list runs one line past the range exactly when the last address of the range is
      not itself the start of a line. */
  lemma OneLinePastTheEnd(c: Config, start: nat, length: nat)
    requires c.Ok() && length > 0
    ensures var bases, end := LineBases(c, start, length), start + length - 1;
            bases[|bases| - 1] > end <==> LineBase(c, end) != end
  {
    BaseDecodes(c, start);
    LastBase(c, LineBase(c, start), start + length - 1);
  }

  /* ---------- the cache with its maintenance ---------- */

  /** What is left of a write-back request. */
  datatype Request = Request(start: nat, length: nat)
  datatype Pending = Pending(request: Request, bases: seq<nat>, active: Option<PendingWriteBack>)

  datatype Direct = Direct(bank: Bank, fabric: Fabric, maintenance: Option<Pending>)

  /** `pending_write_back_for_line`. */
  function DirtyWords(b: Bank, base: nat): (words: Option<seq<Word4>>)
    requires BankShape(b)
    ensures words.Some? ==> |words.value| == b.config.words
  {
    if !CachesLine(b.config, base) then None
    else
      var hit := Lookup(b, base);
      if hit.None? then None
      else
        var line := LineAt(b, SetOf(b.config, base), hit.value);
        if line.dirty then Some(line.words) else None
  }

  /** `complete_write_back_for_line`. */
  function Cleaned(b: Bank, base: nat): (r: Bank)
    requires BankShape(b)
    ensures BankShape(r) && r.config == b.config && r.pending == b.pending
  {
    if !CachesLine(b.config, base) then b
    else
      var hit := Lookup(b, base);
      if hit.None? then b
      else
        var set_ := SetOf(b.config, base);
        WithLine(b, set_, hit.value, LineAt(b, set_, hit.value).(dirty := false))
  }

  predicate PendingFits(c: Config, f: Fabric, m: Pending) {
    m.active.Some? ==>
      |m.active.value.words| == c.words &&
      (m.active.value.burst.Some? ==> BurstIndex(f, m.active.value.burst.value).Some?)
  }

  datatype Progress = Progress(bank: Bank, fabric: Fabric, pending: Pending, reply: Reply<()>)

  /** `continue_write_back_range`: line by line until the list is empty or a burst waits. */
  function Continue(b: Bank, f: Fabric, m: Pending): Progress
    requires BankShape(b) && FabricOk(f) && PendingFits(b.config, f, m)
    decreases |m.bases|, if m.active.Some? then 1 else 0
  {
    if m.active.Some? then
      var wb := m.active.value;
      DriveKeepsOk(f, wb.burst, WriteWords(wb.base, wb.words));
      var d := DriveBurst(f, wb.burst, WriteWords(wb.base, wb.words));
      match d.outcome
      case Blocked => Progress(b, d.fabric, m.(active := Some(wb.(burst := d.burst))), Busy)
      case TurnedAway => Progress(b, d.fabric, m, Busy)
      case Broken(e) => Progress(b, d.fabric, m.(active := Some(wb.(burst := d.burst))), Failure(e))
      case Finished(_) => Continue(Cleaned(b, wb.base), d.fabric, m.(active := None))
    else if m.bases == [] then Progress(b, f, m, Got(()))
    else
      var words := DirtyWords(b, m.bases[0]);
      Continue(b, f, m.(bases := m.bases[1..],
                        active := if words.Some? then Some(PendingWriteBack(m.bases[0], words.value, None)) else None))
  }

  datatype Turn = Turn(direct: Direct, reply: Reply<()>)

  predicate DirectShape(d: Direct) {
    BankShape(d.bank) && FabricOk(d.fabric) && BurstsActive(d.bank, d.fabric) &&
    (d.maintenance.Some? ==> PendingFits(d.bank.config, d.fabric, d.maintenance.value))
  }

  function Resumed(d: Direct, m: Pending): Turn
    requires DirectShape(d) && PendingFits(d.bank.config, d.fabric, m)
  {
    var p := Continue(d.bank, d.fabric, m);
    // The memory map below has nothing to write back, so it is done at once.
    Turn(Direct(p.bank, p.fabric, if p.reply.Got? then None else Some(p.pending)), p.reply)
  }

  /** `write_back_range`. */
  function WriteBackRange(d: Direct, request: Request): Turn
    requires DirectShape(d)
  {
    if d.maintenance.Some? then
      (if d.maintenance.value.request == request then Resumed(d, d.maintenance.value) else Turn(d, Busy))
    else if d.bank.pending.Some? then Turn(d, Busy)
    else Resumed(d, Pending(request, LineBases(d.bank.config, request.start, request.length), None))
  }

  /** Loads and stores wait while maintenance is in progress. */
  function DirectLoad(d: Direct, addr: nat, busy: bool): (Direct, Reply<Word4>)
    requires DirectShape(d)
  {
    if d.maintenance.Some? then (d, Busy)
    else if !Cacheable(d.bank.config, addr) then (d, ReadPast(d.fabric, addr, busy))
    else
      var a := LoadLine(d.bank, d.fabric, addr, LoadAccess);
      (d.(bank := a.bank, fabric := a.fabric), a.reply)
  }

  function DirectStore(d: Direct, op: StoreOp, busy: bool): (Direct, Reply<()>)
    requires DirectShape(d) && op.width <= 4 && Fits(d.bank.config, op)
  {
    if d.maintenance.Some? then (d, Busy)
    else
      var a := StoreLine(d.bank, d.fabric, op, busy);
      (d.(bank := a.bank, fabric := a.fabric), a.reply)
  }

  /* ---------- the invariant ---------- */

  function MineOfActive(m: Pending): Mine {
    if m.active.Some? && m.active.value.burst.Some?
    then Writing(m.active.value.burst.value, m.active.value.base, m.active.value.words) else NoBurst
  }

  /** The line being written back is valid, dirty and as it was saved. */
  predicate ActiveLine(b: Bank, m: Pending)
    requires BankShape(b)
  {
    m.active.Some? ==>
      var wb := m.active.value;
      LineBase(b.config, wb.base) == wb.base && CachesLine(b.config, wb.base) && Lookup(b, wb.base).Some? &&
      var line := LineAt(b, SetOf(b.config, wb.base), Lookup(b, wb.base).value);
      line.dirty && line.words == wb.words
  }

  /** The cached line of this base, if there is one, is clean. */
  predicate CleanAt(b: Bank, base: nat)
    requires BankShape(b)
  {
    Lookup(b, base).Some? ==> !LineAt(b, SetOf(b.config, base), Lookup(b, base).value).dirty
  }

  predicate Covered(b: Bank, m: Pending, base: nat)
    requires BankShape(b)
  {
    base in m.bases || (m.active.Some? && m.active.value.base == base) || CleanAt(b, base)
  }

  /** Every line of the range is clean already or still on the list. */
  ghost predicate RangeCovered(b: Bank, m: Pending)
    requires BankShape(b)
  {
    forall addr | m.request.start <= addr < m.request.start + m.request.length :: Covered(b, m, LineBase(b.config, addr))
  }

  /** The bank at rest with `mine` as the only burst written for it. */
  ghost predicate RestOk(b: Bank, f: Fabric, mine: Mine) {
    BankShape(b) && b.pending.None? && UniqueTags(b) && LinesMatch(b, f) && Mapped(b.config, f) && Serves(f, mine)
  }

  ghost predicate MaintenanceOk(b: Bank, f: Fabric, m: Pending) {
    RestOk(b, f, MineOfActive(m)) && ActiveLine(b, m) && RangeCovered(b, m)
  }

  ghost predicate DirectOk(d: Direct) {
    if d.maintenance.Some? then MaintenanceOk(d.bank, d.fabric, d.maintenance.value) else BankOk(d.bank, d.fabric)
  }

  /* ---------- one line ---------- */

  /** Memory may change under the line being written back: it is valid and dirty. */
  lemma UnderActive(b: Bank, f: Fabric, g: Fabric, m: Pending, addr: nat)
    requires BankShape(b) && UniqueTags(b) && LinesMatch(b, f) && b.pending.None? && ActiveLine(b, m) && m.active.Some?
    requires |m.active.value.words| == b.config.words
    requires SameOutside(f.bytes, g.bytes, m.active.value.base, b.config.LineSize())
    ensures LinesMatch(b, g) && View(b, g, addr) == View(b, f, addr)
  {
    var c, wb := b.config, m.active.value;
    SameLine(c, wb.base, addr);
    if LineBase(c, addr) == wb.base { LookupByLine(b, addr, wb.base); }
    LookupHits(b, wb.base);
    hide CachesLine, Lookup;
    forall s, w | 0 <= s < c.sets && 0 <= w < c.ways && LineAt(b, s, w).valid && !LineAt(b, s, w).dirty
      ensures Held(c, g, s, LineAt(b, s, w))
    {
      var line := LineAt(b, s, w);
      var base := BaseFor(c, s, line.tag);
      EncodeRoundTrip(c, s, line.tag);
      if base == wb.base {
        assert false;
      }
      LinesApart(c, base, wb.base);
      HoldsElsewhere(f.bytes, g.bytes, wb.base, c.LineSize(), base, line.words);
    }
    hide Quotient, Remainder, LineNumber, LineBase, SetOf, TagOf, BaseFor, Holds, ByteIn;
  }

  lemma CleanedShape(b: Bank, base: nat)
    requires BankShape(b) && UniqueTags(b) && LineBase(b.config, base) == base && CachesLine(b.config, base)
    ensures var r := Cleaned(b, base);
            forall s, w | 0 <= s < b.config.sets && 0 <= w < b.config.ways ::
              LineAt(r, s, w) ==
              if s == SetOf(b.config, base) && Lookup(b, base) == Some(w) then LineAt(b, s, w).(dirty := false) else LineAt(b, s, w)
  {
    hide Lookup, SetOf, CachesLine, LineBase;
  }

  /** Marking lines clean leaves every lookup alone. */
  lemma CleanedLookup(b: Bank, base: nat, addr: nat)
    requires BankShape(b) && UniqueTags(b) && LineBase(b.config, base) == base && CachesLine(b.config, base)
    ensures UniqueTags(Cleaned(b, base)) && Lookup(Cleaned(b, base), addr) == Lookup(b, addr)
  {
    CleanedShape(b, base);
    var r := Cleaned(b, base);
    LookupHits(b, addr);
    LookupHits(r, addr);
    hide Cleaned, Lookup, SetOf, TagOf, LineBase, CachesLine;
    forall w | 0 <= w < b.config.ways ensures HitAt(r, addr, w) == HitAt(b, addr, w) {}
    if Lookup(b, addr).Some? {
      LookupIs(r, addr, Lookup(b, addr).value);
    }
  }

  /** When memory has taken a line's words, marking it clean changes no byte. */
  lemma CleanedKeeps(b: Bank, f: Fabric, m: Pending, addr: nat)
    requires RestOk(b, f, NoBurst) && ActiveLine(b, m) && m.active.Some?
    requires |m.active.value.words| == b.config.words && Holds(f.bytes, m.active.value.base, m.active.value.words, b.config.words)
    ensures var r := Cleaned(b, m.active.value.base);
            RestOk(r, f, NoBurst) && View(r, f, addr) == View(b, f, addr) && CleanAt(r, m.active.value.base) &&
            (CleanAt(b, addr) ==> CleanAt(r, addr))
  {
    var c, base := b.config, m.active.value.base;
    var r := Cleaned(b, base);
    CleanedShape(b, base);
    CleanedLookup(b, base, addr);
    CleanedLookup(b, base, base);
    LookupHits(b, base);
    DecodeRoundTrip(c, base);
    hide Cleaned, Lookup, SetOf, TagOf, LineBase, BaseFor, CachesLine, Holds, Serves, Mapped, ByteIn, UniqueTags, Quotient,
         Remainder, LineNumber;
  }

  /* ---------- the loop ---------- */

  lemma NextLineToWrite(b: Bank, m: Pending)
    requires BankShape(b) && UniqueTags(b) && m.active.None? && m.bases != [] && RangeCovered(b, m)
    requires forall k | 0 <= k < |m.bases| :: LineBase(b.config, m.bases[k]) == m.bases[k]
    requires forall s, w | 0 <= s < b.config.sets && 0 <= w < b.config.ways && LineAt(b, s, w).valid ::
      CachesLine(b.config, BaseFor(b.config, s, LineAt(b, s, w).tag))
    ensures var words := DirtyWords(b, m.bases[0]);
            var next := m.(bases := m.bases[1..],
                           active := if words.Some? then Some(PendingWriteBack(m.bases[0], words.value, None)) else None);
            ActiveLine(b, next) && RangeCovered(b, next)
  {
    var base, words := m.bases[0], DirtyWords(b, m.bases[0]);
    var next := m.(bases := m.bases[1..],
                   active := if words.Some? then Some(PendingWriteBack(base, words.value, None)) else None);
    LookupHits(b, base);
    DecodeRoundTrip(b.config, base);
    forall addr | m.request.start <= addr < m.request.start + m.request.length
      ensures Covered(b, next, LineBase(b.config, addr))
    {
      assert Covered(b, m, LineBase(b.config, addr));
      if LineBase(b.config, addr) in m.bases && LineBase(b.config, addr) != base {
        var k :| 0 <= k < |m.bases| && m.bases[k] == LineBase(b.config, addr);
        assert m.bases[1..][k - 1] == m.bases[k];
      }
    }
    hide Lookup, SetOf, TagOf, LineBase, BaseFor, CachesLine, Quotient, Remainder, LineNumber;
  }

  ghost predicate BasesOk(c: Config, m: Pending)
    requires c.Ok()
  {
    forall k | 0 <= k < |m.bases| :: LineBase(c, m.bases[k]) == m.bases[k]
  }

  /** Nothing of the range is dirty any more. */
  ghost predicate RangeClean(b: Bank, request: Request)
    requires BankShape(b)
  {
    forall addr | request.start <= addr < request.start + request.length :: CleanAt(b, LineBase(b.config, addr))
  }

  ghost predicate ContinuesTo(b: Bank, f: Fabric, m: Pending, p: Progress, addr: nat)
    requires BankShape(b)
  {
    !p.reply.Failure? && p.bank.config == b.config && p.fabric.regions == f.regions &&
    (p.reply.Busy? ==> MaintenanceOk(p.bank, p.fabric, p.pending) && BasesOk(b.config, p.pending) && p.pending.request == m.request
                       && PendingFits(b.config, p.fabric, p.pending)) &&
    (p.reply.Got? ==> RestOk(p.bank, p.fabric, NoBurst) && RangeClean(p.bank, m.request)) &&
    BankShape(p.bank) && View(p.bank, p.fabric, addr) == View(b, f, addr)
  }

  lemma MaintenanceActive(b: Bank, f: Fabric, m: Pending)
    requires MaintenanceOk(b, f, m) && (m.active.Some? ==> |m.active.value.words| == b.config.words)
    ensures FabricOk(f) && BankShape(b) && PendingFits(b.config, f, m)
  {
  }

  lemma ActiveDrives(b: Bank, f: Fabric, m: Pending, addr: nat)
    requires MaintenanceOk(b, f, m) && m.active.Some? && |m.active.value.words| == b.config.words
    ensures FabricOk(f) && PendingFits(b.config, f, m)
    ensures var wb := m.active.value;
            var request := WriteWords(wb.base, wb.words);
            var d := DriveBurst(f, wb.burst, request);
            DroveTo(f, request, d) && LinesMatch(b, d.fabric) && Mapped(b.config, d.fabric) &&
            View(b, d.fabric, addr) == View(b, f, addr)
  {
    var wb, request := m.active.value, WriteWords(m.active.value.base, m.active.value.words);
    MappedLine(b.config, f, wb.base);
    DriveBurstServes(f, wb.burst, request);
    UnderActive(b, f, DriveBurst(f, wb.burst, request).fabric, m, addr);
    MappedSame(b.config, f, DriveBurst(f, wb.burst, request).fabric);
    hide DriveBurst, Serves, Mapped, LinesMatch, UniqueTags, Lookup, Holds, View, LineBase, CachesLine, SetOf, RangeCovered;
  }

  lemma ActiveWords(b: Bank, m: Pending)
    requires BankShape(b) && ActiveLine(b, m) && m.active.Some?
    ensures |m.active.value.words| == b.config.words
  {
  }

  /** One line done: it is clean and the rest of the range is as covered as before. */
  lemma LineDone(b: Bank, f: Fabric, g: Fabric, m: Pending, addr: nat)
    requires MaintenanceOk(b, f, m) && m.active.Some? && |m.active.value.words| == b.config.words
    requires LinesMatch(b, g) && Mapped(b.config, g) && Serves(g, NoBurst)
    requires Holds(g.bytes, m.active.value.base, m.active.value.words, b.config.words)
    ensures var r, rest := Cleaned(b, m.active.value.base), m.(active := None);
            MaintenanceOk(r, g, rest) && View(r, g, addr) == View(b, g, addr)
  {
    var r, rest := Cleaned(b, m.active.value.base), m.(active := None);
    CleanedKeeps(b, g, m, addr);
    hide Cleaned, Serves, Mapped, LinesMatch, UniqueTags, Lookup, Holds, View, LineBase, CachesLine, SetOf, BankShape;
    forall a | m.request.start <= a < m.request.start + m.request.length
      ensures Covered(r, rest, LineBase(b.config, a))
    {
      assert Covered(b, m, LineBase(b.config, a));
      CleanedKeeps(b, g, m, LineBase(b.config, a));
    }
  }

  lemma RangeDone(b: Bank, m: Pending)
    requires BankShape(b) && RangeCovered(b, m) && m.active.None? && m.bases == []
    ensures RangeClean(b, m.request)
  {
    forall addr | m.request.start <= addr < m.request.start + m.request.length
      ensures CleanAt(b, LineBase(b.config, addr))
    {
      assert Covered(b, m, LineBase(b.config, addr));
    }
  }

  lemma RestLines(b: Bank, f: Fabric)
    requires BankShape(b) && LinesMatch(b, f)
    ensures forall s, w | 0 <= s < b.config.sets && 0 <= w < b.config.ways && LineAt(b, s, w).valid ::
      CachesLine(b.config, BaseFor(b.config, s, LineAt(b, s, w).tag))
  {
  }

  /** What continues to an end from the next point does so from here. */
  lemma Chained(b: Bank, f: Fabric, m: Pending, c: Bank, g: Fabric, n: Pending, p: Progress, addr: nat)
    requires BankShape(b) && BankShape(c) && c.config == b.config && g.regions == f.regions && n.request == m.request
    requires View(c, g, addr) == View(b, f, addr) && ContinuesTo(c, g, n, p, addr)
    ensures ContinuesTo(b, f, m, p, addr)
  {
    hide View, MaintenanceOk, BasesOk, RestOk, RangeClean, PendingFits;
  }

  lemma StillWriting(b: Bank, f: Fabric, g: Fabric, m: Pending, id: nat, addr: nat)
    requires MaintenanceOk(b, f, m) && BasesOk(b.config, m) && m.active.Some? && g.regions == f.regions
    requires LinesMatch(b, g) && Mapped(b.config, g) && View(b, g, addr) == View(b, f, addr)
    requires Serves(g, Writing(id, m.active.value.base, m.active.value.words))
    ensures var next := m.(active := Some(m.active.value.(burst := Some(id))));
            ContinuesTo(b, f, m, Progress(b, g, next, Busy), addr)
  {
    var next := m.(active := Some(m.active.value.(burst := Some(id))));
    ActiveWords(b, m);
    ServesHasBurst(g, Writing(id, m.active.value.base, m.active.value.words));
    SameCovered(b, m, next);
    hide Serves, Mapped, LinesMatch, UniqueTags, Lookup, View, LineBase, CachesLine, SetOf, RangeCovered;
  }

  lemma {:induction false} ContinueWrites(b: Bank, f: Fabric, m: Pending, addr: nat)
    requires MaintenanceOk(b, f, m) && BasesOk(b.config, m)
    ensures FabricOk(f) && BankShape(b) && PendingFits(b.config, f, m)
    ensures ContinuesTo(b, f, m, Continue(b, f, m), addr)
    decreases |m.bases|, if m.active.Some? then 1 else 0
  {
    if m.active.Some? { ActiveWords(b, m); }
    MaintenanceActive(b, f, m);
    if m.active.Some? {
      var wb := m.active.value;
      ActiveDrives(b, f, m, addr);
      var d := DriveBurst(f, wb.burst, WriteWords(wb.base, wb.words));
      hide DriveBurst, MaintenanceOk, Serves, Mapped, LinesMatch, View, BasesOk, Cleaned, BankShape, FabricOk, ContinuesTo,
           Holds, PendingFits, ActiveLine;
      if d.outcome.Finished? {
        LineDone(b, f, d.fabric, m, addr);
        SameBases(b.config, m, m.(active := None));
        ContinueWrites(Cleaned(b, wb.base), d.fabric, m.(active := None), addr);
        Chained(b, f, m, Cleaned(b, wb.base), d.fabric, m.(active := None), Continue(b, f, m), addr);
      } else {
        StillWriting(b, f, d.fabric, m, d.burst.value, addr);
      }
    } else if m.bases == [] {
      RangeDone(b, m);
    } else {
      RestLines(b, f);
      NextLineToWrite(b, m);
      var words := DirtyWords(b, m.bases[0]);
      var next := m.(bases := m.bases[1..],
                     active := if words.Some? then Some(PendingWriteBack(m.bases[0], words.value, None)) else None);
      assert MaintenanceOk(b, f, next) && BasesOk(b.config, next);
      hide MaintenanceOk, View, BasesOk, DirtyWords, BankShape, FabricOk, ContinuesTo, PendingFits;
      ContinueWrites(b, f, next, addr);
      Chained(b, f, m, b, f, next, Continue(b, f, next), addr);
    }
  }

  lemma SameBases(c: Config, m: Pending, n: Pending)
    requires c.Ok() && BasesOk(c, m) && n.bases == m.bases
    ensures BasesOk(c, n)
  {
  }

  lemma SameCovered(b: Bank, m: Pending, n: Pending)
    requires BankShape(b) && RangeCovered(b, m) && n.request == m.request && n.bases == m.bases
    requires m.active.Some? && n.active.Some? && n.active.value.base == m.active.value.base
    ensures RangeCovered(b, n)
  {
    forall addr | m.request.start <= addr < m.request.start + m.request.length
      ensures Covered(b, n, LineBase(b.config, addr))
    {
      assert Covered(b, m, LineBase(b.config, addr));
    }
  }

  /* ---------- whole requests ---------- */

  ghost predicate MaintainedOk(d: Direct) {
    DirectOk(d) && (d.maintenance.Some? ==> BankShape(d.bank) && BasesOk(d.bank.config, d.maintenance.value))
  }

  lemma DirectIsShaped(d: Direct)
    requires MaintainedOk(d)
    ensures DirectShape(d)
  {
    if d.maintenance.Some? {
      if d.maintenance.value.active.Some? { ActiveWords(d.bank, d.maintenance.value); }
      MaintenanceActive(d.bank, d.fabric, d.maintenance.value);
    } else {
      OkGivesActive(d.bank, d.fabric);
    }
  }

  lemma {:induction false} BasesAreLines(c: Config, base: nat, end: nat)
    requires c.Ok() && LineBase(c, base) == base
    ensures forall k | 0 <= k < |BasesFrom(c, base, end)| :: LineBase(c, BasesFrom(c, base, end)[k]) == BasesFrom(c, base, end)[k]
    decreases if base < end then end - base else 0
  {
    if base < end {
      NextLine(c, base);
      BasesAreLines(c, base + c.LineSize(), end);
    }
  }

  lemma RequestStarts(b: Bank, f: Fabric, request: Request)
    requires BankOk(b, f) && b.pending.None?
    ensures var m := Pending(request, LineBases(b.config, request.start, request.length), None);
            MaintenanceOk(b, f, m) && BasesOk(b.config, m)
  {
    var m := Pending(request, LineBases(b.config, request.start, request.length), None);
    BaseDecodes(b.config, request.start);
    if request.length > 0 {
      BasesAreLines(b.config, LineBase(b.config, request.start), request.start + request.length - 1);
    }
    forall addr | request.start <= addr < request.start + request.length
      ensures Covered(b, m, LineBase(b.config, addr))
    {
      RangeIsCovered(b.config, request.start, request.length, addr);
    }
    hide Serves, Mapped, LinesMatch, UniqueTags, LineBase, BasesFrom;
  }

  lemma RestIsOk(b: Bank, f: Fabric)
    requires RestOk(b, f, NoBurst)
    ensures BankOk(b, f)
  {
  }

  /** A write-back call changes no byte that can be read, never fails, and when it returns
      done every cached line of the range is clean. */
  lemma WriteBackKeeps(d: Direct, request: Request, addr: nat)
    requires MaintainedOk(d)
    ensures DirectShape(d)
    ensures var t := WriteBackRange(d, request);
            MaintainedOk(t.direct) && !t.reply.Failure? && BankShape(t.direct.bank) &&
            View(t.direct.bank, t.direct.fabric, addr) == View(d.bank, d.fabric, addr) &&
            t.direct.bank.config == d.bank.config &&
            (t.reply.Got? ==> t.direct.maintenance.None? && RangeClean(t.direct.bank, request)) &&
            (t.reply.Busy? ==> t.direct.maintenance.Some? || (d == t.direct && d.bank.pending.Some?))
  {
    DirectIsShaped(d);
    if d.maintenance.Some? {
      if d.maintenance.value.request == request {
        ContinueWrites(d.bank, d.fabric, d.maintenance.value, addr);
        Settled(d, d.maintenance.value, addr);
      }
    } else if d.bank.pending.None? {
      RequestStarts(d.bank, d.fabric, request);
      var m := Pending(request, LineBases(d.bank.config, request.start, request.length), None);
      ContinueWrites(d.bank, d.fabric, m, addr);
      Settled(d, m, addr);
    }
    hide Continue, MaintenanceOk, BankOk, View, BasesOk, RangeClean, LineBases;
  }

  lemma Settled(d: Direct, m: Pending, addr: nat)
    requires DirectShape(d) && PendingFits(d.bank.config, d.fabric, m)
    requires ContinuesTo(d.bank, d.fabric, m, Continue(d.bank, d.fabric, m), addr)
    ensures MaintainedOk(Resumed(d, m).direct)
  {
    var p := Continue(d.bank, d.fabric, m);
    if p.reply.Got? { RestIsOk(p.bank, p.fabric); }
    hide Continue, MaintenanceOk, BankOk, View, BasesOk, RangeClean, RestOk;
  }

  /** A clean line of the range holds what memory holds. */
  lemma CleanRangeIsMemory(d: Direct, request: Request, addr: nat)
    requires MaintainedOk(d) && d.maintenance.None? && BankShape(d.bank) && RangeClean(d.bank, request)
    requires request.start <= addr < request.start + request.length && Lookup(d.bank, addr).Some?
    ensures addr in d.fabric.bytes && View(d.bank, d.fabric, addr) == Some(d.fabric.bytes[addr])
  {
    var b, w := d.bank, Lookup(d.bank, addr).value;
    BaseDecodes(b.config, addr);
    LookupByLine(b, addr, LineBase(b.config, addr));
    assert CleanAt(b, LineBase(b.config, addr));
    LookupHits(b, addr);
    CleanLineIsMemory(b, d.fabric, addr, w);
  }

  lemma MaintainedTick(d: Direct, addr: nat)
    requires MaintainedOk(d)
    ensures DirectShape(d)
    ensures var t := d.(fabric := Tick(d.fabric));
            MaintainedOk(t) && View(t.bank, t.fabric, addr) == View(d.bank, d.fabric, addr)
  {
    DirectIsShaped(d);
    if d.maintenance.None? {
      TickKeeps(d.bank, d.fabric, addr);
    } else {
      var m := d.maintenance.value;
      TickServes(d.fabric, MineOfActive(m));
      MappedSame(d.bank.config, d.fabric, Tick(d.fabric));
      if MineOfActive(m).Writing? {
        ActiveWords(d.bank, m);
        UnderActive(d.bank, d.fabric, Tick(d.fabric), m, addr);
      } else {
        LinesMatchSame(d.bank, d.bank, d.fabric, Tick(d.fabric));
        SameViewIdle(d.bank, d.bank, d.fabric, Tick(d.fabric), addr);
      }
    }
    hide Tick, Serves, Mapped, LinesMatch, UniqueTags, Lookup, Holds, View, LineBase, CachesLine, RangeCovered, ActiveLine,
         BankOk, BasesOk;
  }

  /* ---------- retrying until it is done ---------- */

  datatype Event = Clock | Retry | Read(addr: nat, busy: bool) | Write(op: StoreOp, busy: bool)

  predicate Allowed(c: Config, e: Event)
    requires c.Ok()
  {
    e.Write? ==> e.op.width <= 4 && Fits(c, e.op)
  }

  function After(d: Direct, request: Request, e: Event): Direct
    requires DirectShape(d) && Allowed(d.bank.config, e)
  {
    match e
    case Clock => d.(fabric := Tick(d.fabric))
    case Retry => WriteBackRange(d, request).direct
    case Read(addr, busy) => DirectLoad(d, addr, busy).0
    case Write(op, busy) => DirectStore(d, op, busy).0
  }

  /** Every byte reads as before until a retry reports the request done, and then the
      whole range is clean. */
  ghost predicate WritesBack(d: Direct, request: Request, events: seq<Event>, addr: nat, byte: Option<Byte>)
    decreases |events|
  {
    events == [] ||
      (DirectShape(d) && View(d.bank, d.fabric, addr) == byte && Allowed(d.bank.config, events[0]) &&
       var t := After(d, request, events[0]);
       BankShape(t.bank) &&
       if events[0].Retry? && WriteBackRange(d, request).reply.Got? then
         RangeClean(t.bank, request) && View(t.bank, t.fabric, addr) == byte
       else WritesBack(t, request, events[1..], addr, byte))
  }

  /** While the request is in progress, any number of retries and ticks, and any loads and
      stores (which are told to wait), leave every byte as it was; when a retry returns
      done every cached line of the range is clean. */
  lemma {:induction false} RetriesWriteBack(d: Direct, request: Request, events: seq<Event>, addr: nat)
    requires MaintainedOk(d) && d.maintenance.Some? && BankShape(d.bank)
    requires forall k | 0 <= k < |events| :: Allowed(d.bank.config, events[k])
    ensures WritesBack(d, request, events, addr, View(d.bank, d.fabric, addr))
    decreases |events|
  {
    if events != [] {
      DirectIsShaped(d);
      hide MaintainedOk, WriteBackRange, Tick, View, RangeClean, BankShape, FabricOk, BurstsActive, PendingFits, Fits;
      WriteBackKeeps(d, request, addr);
      MaintainedTick(d, addr);
      var t := After(d, request, events[0]);
      if !(events[0].Retry? && WriteBackRange(d, request).reply.Got?) {
        RetriesWriteBack(t, request, events[1..], addr);
      }
    }
  }
}
