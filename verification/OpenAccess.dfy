/** The single accesses of the memory map: a caller that is told Busy comes back with the
    same request, and the memory map keeps one access open for it in between. For a store
    this comes to the one step `Cache.CommitStore` takes. */
module OpenAccess {
  import opened Wrappers
  import opened BusFabric
  import opened CachePort
  import opened Cache
  import opened CacheProof

  /** The access kept open, and what it was opened for. */
  datatype Slot = Slot(id: nat, request: AccessRequest)

  datatype Port = Port(fabric: Fabric, slot: Option<Slot>)

  /** The access of the slot is active: it has not been answered. */
  predicate PortOk(p: Port) {
    FabricOk(p.fabric) &&
    (p.slot.Some? ==>
       var i := AccessIndex(p.fabric, p.slot.value.id);
       i.Some? && p.fabric.accesses[i.value].request == p.slot.value.request)
  }

  /** `None` is Busy. */
  datatype Performed = Performed(port: Port, answer: Option<Outcome<AccessResponse>>)

  /** An access that has not started is advanced once, and its answer taken if it has one. */
  function Progress(f: Fabric, slot: Slot): Performed
    requires FabricOk(f) && AccessIndex(f, slot.id).Some?
  {
    var i := AccessIndex(f, slot.id).value;
    var g := if f.accesses[i].phase.Waiting? then AdvanceAccessAt(f, i) else f;
    var t := TakeAccess(g, slot.id);
    if t.response.Some? then Performed(Port(t.fabric, None), t.response) else Performed(Port(g, Some(slot)), None)
  }

  /** `perform_request`. */
  function Perform(p: Port, request: AccessRequest): Performed
    requires PortOk(p)
  {
    if p.slot.Some? then
      if p.slot.value.request != request then Performed(p, None) else Progress(p.fabric, p.slot.value)
    else
      var s := SubmitAccess(p.fabric, request);
      match s.id
      case Fault(e) => Performed(p, Some(Fault(e)))
      case Done(id) => NewAccess(p.fabric, request); Progress(s.fabric, Slot(id, request))
  }

  /* ---------- indices ---------- */

  lemma {:induction false} FirstAccess(f: Fabric, id: nat, i: nat, from: nat)
    requires from <= i < |f.accesses| && f.accesses[i].id == id && forall k | from <= k < i :: f.accesses[k].id != id
    ensures AccessIndex(f, id, from) == Some(i)
    decreases i - from
  {
    if from < i { FirstAccess(f, id, i, from + 1); }
  }

  /** Ids are unique, so an access is found wherever it is. */
  lemma AccessAt(f: Fabric, i: nat)
    requires FabricOk(f) && i < |f.accesses|
    ensures AccessIndex(f, f.accesses[i].id) == Some(i)
  {
    FirstAccess(f, f.accesses[i].id, i, 0);
  }

  lemma NewAccess(f: Fabric, request: AccessRequest)
    requires FabricOk(f)
    ensures var s := SubmitAccess(f, request);
            s.id.Done? ==> AccessIndex(s.fabric, s.id.value) == Some(|f.accesses|) && s.fabric.bytes == f.bytes &&
                           s.fabric.accesses[|f.accesses|].request == request
  {
    hide FindRegion;
    var s := SubmitAccess(f, request);
    if s.id.Done? { AccessAt(s.fabric, |f.accesses|); }
  }

  lemma SameAccesses(f: Fabric, g: Fabric, id: nat)
    requires FabricOk(f) && FabricOk(g) && |f.accesses| == |g.accesses|
    requires forall k | 0 <= k < |f.accesses| :: g.accesses[k].id == f.accesses[k].id
    ensures AccessIndex(g, id) == AccessIndex(f, id)
  {
    var i := AccessIndex(f, id);
    if i.Some? { AccessAt(g, i.value); }
  }

  /* ---------- an open store ---------- */

  /** Nothing in the fabric writes, but for the access of this id. */
  predicate Quiet(f: Fabric, id: Option<nat>) {
    (forall i | 0 <= i < |f.bursts| :: f.bursts[i].request.ReadWords?) &&
    (forall i | 0 <= i < |f.accesses| :: f.accesses[i].request.kind.StoreAccess? ==> Some(f.accesses[i].id) == id)
  }

  predicate StoreRequest(r: AccessRequest) { r.kind.StoreAccess? && (r.width == 1 || r.width == 2 || r.width == 4) }

  /** What the store does to this memory. */
  function Effect(f: Fabric, bytes: Bytes, region: nat, r: AccessRequest): Stored
    requires region < |f.regions| && StoreRequest(r)
  {
    StoreFrom(f.(bytes := bytes), region, r.addr, r.data, 0, r.width)
  }

  /** The store has not been done, or has been done once. */
  predicate AsFar(f: Fabric, start: Bytes, a: ActiveAccess)
    requires a.region < |f.regions| && StoreRequest(a.request)
  {
    var e := Effect(f, start, a.region, a.request);
    match a.phase
    case Waiting => f.bytes == start
    case Underway(_) => f.bytes == start
    case Answered(response) => f.bytes == e.bytes && e.fault.None? && response == WriteComplete
    case Refused(error) => f.bytes == e.bytes && e.fault == Some(error)
  }

  /** Access `i` is the open store. */
  predicate OpenAt(f: Fabric, i: nat, id: nat, start: Bytes, request: AccessRequest) {
    FabricOk(f) && Quiet(f, Some(id)) && StoreRequest(request) && i < |f.accesses| &&
    f.accesses[i].id == id && f.accesses[i].request == request && f.accesses[i].region < |f.regions| &&
    Some(f.accesses[i].region) == FindRegion(f.regions, request.addr) && AsFar(f, start, f.accesses[i])
  }

  lemma AsFarSame(f: Fabric, g: Fabric, start: Bytes, a: ActiveAccess)
    requires f.regions == g.regions && f.bytes == g.bytes && a.region < |f.regions| && StoreRequest(a.request)
    requires AsFar(f, start, a)
    ensures AsFar(g, start, a)
  {
    StoreFromByRegions(f.(bytes := start), g.(bytes := start), a.region, a.request.addr, a.request.data, 0, a.request.width);
    hide StoreFrom;
  }

  /** Advancing the open store itself. */
  lemma OwnAdvances(f: Fabric, start: Bytes, a: ActiveAccess)
    requires a.region < |f.regions| && StoreRequest(a.request) && AsFar(f, start, a)
    ensures var (bytes, b) := AdvanceAccess(f, a);
            b.id == a.id && b.request == a.request && b.region == a.region && AsFar(f.(bytes := bytes), start, b)
    ensures a.phase.Answered? || a.phase.Refused? ==> AdvanceAccess(f, a) == (f.bytes, a)
  {
    var (bytes, b) := AdvanceAccess(f, a);
    var e := StoreFrom(f, a.region, a.request.addr, a.request.data, 0, a.request.width);
    assert f.(bytes := f.bytes) == f;
    StoreFromByRegions(f.(bytes := start), f.(bytes := bytes).(bytes := start), a.region, a.request.addr, a.request.data, 0, a.request.width);
    hide StoreFrom;
  }

  lemma OpenAdvances(f: Fabric, k: nat, i: nat, id: nat, start: Bytes, request: AccessRequest)
    requires OpenAt(f, i, id, start, request) && k < |f.accesses|
    ensures OpenAt(AdvanceAccessAt(f, k), i, id, start, request)
    ensures |AdvanceAccessAt(f, k).accesses| == |f.accesses| && AdvanceAccessAt(f, k).regions == f.regions
  {
    hide AdvanceAccess, AsFar, FindRegion, StoreRequest;
    RegionsKnown(f, k);
    var g := AdvanceAccessAt(f, k);
    if k == i {
      OwnAdvances(f, start, f.accesses[i]);
      AsFarSame(f.(bytes := g.bytes), g, start, g.accesses[i]);
    } else {
      OnlyOneStores(f, k, i, id);
      OtherAccess(f, f.accesses[k]);
      AsFarSame(f, g, start, f.accesses[i]);
    }
    AdvanceKeepsId(f, k);
  }

  lemma AdvanceKeepsId(f: Fabric, k: nat)
    requires FabricOk(f) && k < |f.accesses|
    ensures var b := AdvanceAccessAt(f, k).accesses[k];
            b.id == f.accesses[k].id && b.region == f.accesses[k].region && b.request == f.accesses[k].request
  {
    hide ExecuteAccess;
  }

  lemma OnlyOneStores(f: Fabric, k: nat, i: nat, id: nat)
    requires FabricOk(f) && Quiet(f, Some(id)) && i < |f.accesses| && k < |f.accesses| && k != i && f.accesses[i].id == id
    ensures !f.accesses[k].request.kind.StoreAccess?
  {
  }

  lemma {:induction false} AccessesStayOpen(f: Fabric, k: nat, i: nat, id: nat, start: Bytes, request: AccessRequest)
    requires OpenAt(f, i, id, start, request) && k <= |f.accesses|
    ensures OpenAt(AdvanceAccesses(f, k), i, id, start, request)
    decreases |f.accesses| - k
  {
    hide AdvanceAccessAt, AsFar, Quiet, FindRegion;
    if k < |f.accesses| {
      OpenAdvances(f, k, i, id, start, request);
      AccessesStayOpen(AdvanceAccessAt(f, k), k + 1, i, id, start, request);
    }
  }

  lemma BurstStaysOpen(f: Fabric, k: nat, i: nat, id: nat, start: Bytes, request: AccessRequest)
    requires OpenAt(f, i, id, start, request) && k < |f.bursts|
    ensures OpenAt(AdvanceBurstAt(f, k), i, id, start, request) && |AdvanceBurstAt(f, k).bursts| == |f.bursts|
  {
    hide AdvanceOne, AsFar, FindRegion, StoreRequest;
    OtherAdvance(f, f.bursts[k]);
    AsFarSame(f, AdvanceBurstAt(f, k), start, f.accesses[i]);
  }

  lemma {:induction false} BurstsStayOpen(f: Fabric, k: nat, i: nat, id: nat, start: Bytes, request: AccessRequest)
    requires OpenAt(f, i, id, start, request) && k <= |f.bursts|
    ensures OpenAt(AdvanceBursts(f, k), i, id, start, request)
    decreases |f.bursts| - k
  {
    hide AdvanceBurstAt, AsFar, Quiet, FindRegion;
    if k < |f.bursts| {
      BurstStaysOpen(f, k, i, id, start, request);
      BurstsStayOpen(AdvanceBurstAt(f, k), k + 1, i, id, start, request);
    }
  }

  lemma TickStaysOpen(f: Fabric, i: nat, id: nat, start: Bytes, request: AccessRequest)
    requires OpenAt(f, i, id, start, request)
    ensures OpenAt(Tick(f), i, id, start, request) && Tick(f).regions == f.regions && Tick(f).latency == f.latency
  {
    AccessesStayOpen(f, 0, i, id, start, request);
    BurstsStayOpen(AdvanceAccesses(f, 0), 0, i, id, start, request);
    hide OpenAt, FabricOk;
  }

  /** The store has been done once, and nothing else has. */
  predicate DoneOnce(f: Fabric, g: Fabric, start: Bytes, request: AccessRequest, answer: Outcome<AccessResponse>)
    requires StoreRequest(request) && FindRegion(f.regions, request.addr).Some?
  {
    var e := Effect(f, start, FindRegion(f.regions, request.addr).value, request);
    g.bytes == e.bytes && g.regions == f.regions && Quiet(g, None) && FabricOk(g) &&
    answer == if e.fault.Some? then Fault(e.fault.value) else Done(WriteComplete)
  }

  lemma ProgressOpen(f: Fabric, i: nat, id: nat, start: Bytes, request: AccessRequest)
    requires OpenAt(f, i, id, start, request)
    ensures AccessIndex(f, id) == Some(i)
    ensures var q := Progress(f, Slot(id, request));
            q.port.fabric.regions == f.regions && q.port.fabric.latency == f.latency &&
            if q.answer.None? then q.port.slot == Some(Slot(id, request)) && OpenAt(q.port.fabric, i, id, start, request)
            else q.port.slot.None? && DoneOnce(f, q.port.fabric, start, request, q.answer.value)
  {
    AccessAt(f, i);
    var g := if f.accesses[i].phase.Waiting? then AdvanceAccessAt(f, i) else f;
    if f.accesses[i].phase.Waiting? { OpenAdvances(f, i, i, id, start, request); }
    AccessAt(g, i);
    TakenOpen(g, i, id, start, request);
    hide OpenAt, AdvanceAccessAt, TakeAccess, FabricOk, Quiet, StoreFrom;
    if Progress(f, Slot(id, request)).answer.Some? { SameDone(g, f, TakeAccess(g, id).fabric, start, request, TakeAccess(g, id).response.value); }
  }

  lemma SameDone(f: Fabric, g: Fabric, h: Fabric, start: Bytes, request: AccessRequest, answer: Outcome<AccessResponse>)
    requires StoreRequest(request) && FindRegion(f.regions, request.addr).Some? && f.regions == g.regions
    requires DoneOnce(f, h, start, request, answer)
    ensures DoneOnce(g, h, start, request, answer)
  {
    var region := FindRegion(f.regions, request.addr).value;
    StoreFromByRegions(f.(bytes := start), g.(bytes := start), region, request.addr, request.data, 0, request.width);
    hide StoreFrom, Quiet, FabricOk;
  }

  lemma TakenOpen(f: Fabric, i: nat, id: nat, start: Bytes, request: AccessRequest)
    requires OpenAt(f, i, id, start, request)
    ensures var t := TakeAccess(f, id);
            (t.response.None? ==> t.fabric == f) &&
            (t.response.Some? ==> DoneOnce(f, t.fabric, start, request, t.response.value))
    ensures TakeAccess(f, id).fabric.latency == f.latency
    ensures TakeAccess(f, id).response.Some? <==> f.accesses[i].phase.Answered? || f.accesses[i].phase.Refused?
  {
    AccessAt(f, i);
    hide FindRegion, StoreFrom;
    var t := TakeAccess(f, id);
    if t.response.Some? {
      assert forall k | 0 <= k < |t.fabric.accesses| :: t.fabric.accesses[k].id != id;
    }
  }

  /* ---------- a store, retried ---------- */

  datatype Turn = Retry | Clock

  /** A caller that retries until it is answered, and ticks in between. */
  function Play(p: Port, request: AccessRequest, turns: seq<Turn>): Performed
    requires PortOk(p)
    decreases |turns|
  {
    if turns == [] then Performed(p, None)
    else
      match turns[0]
      case Clock => TickPortOk(p); Play(p.(fabric := Tick(p.fabric)), request, turns[1..])
      case Retry =>
        PerformPortOk(p, request);
        var q := Perform(p, request);
        if q.answer.Some? then q else Play(q.port, request, turns[1..])
  }

  lemma {:induction false} AccessesKeepIds(f: Fabric, i: nat)
    requires FabricOk(f) && i <= |f.accesses|
    ensures var g := AdvanceAccesses(f, i);
            |g.accesses| == |f.accesses| &&
            forall k | 0 <= k < |f.accesses| :: g.accesses[k].id == f.accesses[k].id && g.accesses[k].request == f.accesses[k].request
    decreases |f.accesses| - i
  {
    hide AdvanceAccess;
    if i < |f.accesses| {
      AdvanceKeepsId(f, i);
      AccessesKeepIds(AdvanceAccessAt(f, i), i + 1);
    }
  }

  lemma TickPortOk(p: Port)
    requires PortOk(p)
    ensures PortOk(p.(fabric := Tick(p.fabric)))
  {
    AccessesKeepIds(p.fabric, 0);
    if p.slot.Some? { SameAccesses(p.fabric, Tick(p.fabric), p.slot.value.id); }
    hide FabricOk, AdvanceBursts;
  }

  lemma ProgressPortOk(f: Fabric, slot: Slot)
    requires PortOk(Port(f, Some(slot)))
    ensures PortOk(Progress(f, slot).port)
  {
    var i := AccessIndex(f, slot.id).value;
    if f.accesses[i].phase.Waiting? {
      var g := AdvanceAccessAt(f, i);
      AdvanceKeepsId(f, i);
      SameAccesses(f, g, slot.id);
    }
    hide FabricOk, AdvanceAccess;
  }

  lemma PerformPortOk(p: Port, request: AccessRequest)
    requires PortOk(p)
    ensures PortOk(Perform(p, request).port)
  {
    if p.slot.Some? {
      ProgressPortOk(p.fabric, p.slot.value);
    } else {
      NewAccess(p.fabric, request);
      var s := SubmitAccess(p.fabric, request);
      if s.id.Done? { ProgressPortOk(s.fabric, Slot(s.id.value, request)); }
    }
    hide Progress, SubmitAccess, FabricOk;
  }

  lemma SubmittedOpens(f: Fabric, request: AccessRequest)
    requires FabricOk(f) && Quiet(f, None) && StoreRequest(request) && FindRegion(f.regions, request.addr).Some?
    ensures var s := SubmitAccess(f, request);
            s.id == Done(f.nextId) && OpenAt(s.fabric, |f.accesses|, f.nextId, f.bytes, request) &&
            s.fabric.regions == f.regions && s.fabric.latency == f.latency
  {
    hide FindRegion, StoreFrom;
  }

  /** While the store is open memory is as it was, or as the store leaves it. */
  lemma OpenBytes(f: Fabric, g: Fabric, i: nat, id: nat, request: AccessRequest)
    requires OpenAt(g, i, id, f.bytes, request) && g.regions == f.regions
    ensures FindRegion(f.regions, request.addr).Some?
    ensures g.bytes == f.bytes || g.bytes == Effect(f, f.bytes, FindRegion(f.regions, request.addr).value, request).bytes
  {
    var region := FindRegion(f.regions, request.addr).value;
    StoreFromByRegions(g.(bytes := f.bytes), f.(bytes := f.bytes), region, request.addr, request.data, 0, request.width);
    hide StoreFrom, FindRegion;
  }

  lemma {:induction false} OpenRun(f: Fabric, p: Port, i: nat, id: nat, request: AccessRequest, turns: seq<Turn>)
    requires p.slot == Some(Slot(id, request)) && OpenAt(p.fabric, i, id, f.bytes, request) && p.fabric.regions == f.regions
    ensures PortOk(p) && FindRegion(f.regions, request.addr).Some?
    ensures var q := Play(p, request, turns);
            if q.answer.None? then
              q.port.fabric.bytes == f.bytes ||
              q.port.fabric.bytes == Effect(f, f.bytes, FindRegion(f.regions, request.addr).value, request).bytes
            else q.port.slot.None? && DoneOnce(f, q.port.fabric, f.bytes, request, q.answer.value)
    decreases |turns|
  {
    AccessAt(p.fabric, i);
    OpenBytes(f, p.fabric, i, id, request);
    hide OpenAt, FabricOk, Quiet, StoreFrom, Progress, FindRegion, DoneOnce;
    if turns != [] {
      match turns[0] {
        case Clock =>
          TickStaysOpen(p.fabric, i, id, f.bytes, request);
          OpenRun(f, p.(fabric := Tick(p.fabric)), i, id, request, turns[1..]);
        case Retry =>
          ProgressOpen(p.fabric, i, id, f.bytes, request);
          var q := Perform(p, request);
          if q.answer.None? { OpenRun(f, q.port, i, id, request, turns[1..]); }
          else { SameDone(p.fabric, f, q.port.fabric, f.bytes, request, q.answer.value); }
      }
    }
  }

  function RequestFor(op: StoreOp): AccessRequest { AccessRequest(op.addr, StoreAccess, op.width, op.data) }

  /** What the caller of `CommitStore` hears. */
  function ReplyOf(answer: Outcome<AccessResponse>): Reply<()> {
    if answer.Fault? then Failure(answer.error) else Got(())
  }

  /** A store through the memory map, whatever retries and ticks follow its first call, with
      nothing else writing: until it is answered memory is as it was or as `CommitStore`
      leaves it, and once it is answered the reply and memory are those of `CommitStore`. */
  lemma StoreIsOneStep(p: Port, op: StoreOp, turns: seq<Turn>)
    requires PortOk(p) && p.slot.None? && Quiet(p.fabric, None) && (op.width == 1 || op.width == 2 || op.width == 4)
    ensures var q, c := Play(p, RequestFor(op), [Retry] + turns), CommitStore(p.fabric, op, false);
            if q.answer.None? then q.port.fabric.bytes == p.fabric.bytes || q.port.fabric.bytes == c.fabric.bytes
            else q.port.fabric.bytes == c.fabric.bytes && ReplyOf(q.answer.value) == c.reply && q.port.slot.None? &&
                 Quiet(q.port.fabric, None) && PortOk(q.port) && q.port.fabric.regions == p.fabric.regions
  {
    var f, request := p.fabric, RequestFor(op);
    assert ([Retry] + turns)[1..] == turns;
    var first := Perform(p, request);
    if FindRegion(f.regions, op.addr).Some? {
      SubmittedOpens(f, request);
      var s := SubmitAccess(f, request);
      ProgressOpen(s.fabric, |f.accesses|, f.nextId, f.bytes, request);
      assert f.(bytes := f.bytes) == f;
      hide OpenAt, FabricOk, Quiet, StoreFrom, Progress, FindRegion, SubmitAccess;
      if first.answer.None? {
        OpenRun(f, first.port, |f.accesses|, f.nextId, request, turns);
      } else {
        SameDone(s.fabric, f, first.port.fabric, f.bytes, request, first.answer.value);
      }
    }
  }

  /* ---------- a bank above ---------- */

  /** A bank at rest is in order over any quiet fabric with the same memory. */
  lemma SameMemoryOk(b: Bank, f: Fabric, g: Fabric)
    requires BankOk(b, f) && b.pending.None? && g.regions == f.regions && g.bytes == f.bytes && FabricOk(g) && Quiet(g, None)
    ensures BankOk(b, g)
  {
    MappedSame(b.config, f, g);
    LinesMatchSame(b, b, f, g);
    hide Mapped, LinesMatch, UniqueTags, CachesLine, Lookup;
  }

  /** A store to a cached line shows through no other line, and behind its own it is not
      seen. */
  lemma Shielded(b: Bank, f: Fabric, g: Fabric, op: StoreOp, way: nat, addr: nat)
    requires BankShape(b) && UniqueTags(b) && HitAt(b, op.addr, way) && Fits(b.config, op)
    requires SameOutside(f.bytes, g.bytes, op.addr, op.width)
    ensures View(b, g, addr) == View(b, f, addr)
  {
    StoreInLine(b.config, op);
    LookupIs(b, op.addr, way);
    SameLine(b.config, op.addr, addr);
    if LineBase(b.config, addr) == LineBase(b.config, op.addr) { LookupByLine(b, addr, op.addr); }
    hide Lookup, LineBase, SetOf, TagOf, ByteIn;
  }

  predicate OverThrough(b: Bank, op: StoreOp, way: nat) {
    BankShape(b) && b.pending.None? && HitAt(b, op.addr, way) && Fits(b.config, op) && !b.config.writeBack &&
    CachesLine(b.config, LineBase(b.config, op.addr)) && (op.width == 1 || op.width == 2 || op.width == 4)
  }

  lemma ThroughOpen(b: Bank, f: Fabric, g: Fabric, op: StoreOp, way: nat, addr: nat)
    requires BankOk(b, f) && OverThrough(b, op, way)
    requires g.bytes == f.bytes || g.bytes == CommitStore(f, op, false).fabric.bytes
    ensures View(b, g, addr) == View(b, f, addr)
  {
    hide BankOk, View, CommitStore, FabricOk, LineBase, CachesLine, HitAt, BankSound;
    OkIsSound(b, f);
    SoundMatches(b, f);
    SoundBacked(b, f);
    CommitFacts(f, op, false);
    SameOutsideItself(f.bytes, op.addr, op.width);
    Shielded(b, f, g, op, way, addr);
  }

  lemma SoundBacked(b: Bank, f: Fabric)
    requires BankSound(b, f)
    ensures FabricOk(f) && Backed(f)
  {
    ServesIsBacked(f, MineOf(b));
    hide Serves;
  }

  lemma ThroughDone(b: Bank, f: Fabric, g: Fabric, op: StoreOp, way: nat, addr: nat)
    requires BankOk(b, f) && OverThrough(b, op, way) && FabricOk(g) && Quiet(g, None)
    requires g.bytes == CommitStore(f, op, false).fabric.bytes && g.regions == f.regions
    ensures CommitStore(f, op, false).reply.Got?
    ensures var r := UpdateLine(b, op, way, false);
            BankOk(r, g) && View(r, g, addr) == AfterStore(op, addr, View(b, f, addr))
  {
    hide BankOk, View, CommitStore, FabricOk, LineBase, CachesLine, SetOf, TagOf, UpdateLine, Quiet;
    HitCommits(b, f, op, way, false, addr);
    NeverBusy(f, op);
    var r, c := UpdateLine(b, op, way, false), CommitStore(f, op, false);
    UpdateShape(b, op, way, false);
    SameMemoryOk(r, c.fabric, g);
    SameView(r, c.fabric, g, addr);
  }

  lemma NeverBusy(f: Fabric, op: StoreOp)
    requires op.width <= 4
    ensures !CommitStore(f, op, false).reply.Busy?
  {
  }

  lemma SameView(b: Bank, f: Fabric, g: Fabric, addr: nat)
    requires BankShape(b) && f.bytes == g.bytes
    ensures View(b, g, addr) == View(b, f, addr)
  {
  }

  /** A write-through store to a line in the bank, kept open below: until it is answered
      every address reads as before, and when it is answered exactly its bytes have
      changed, in the line and in memory. */
  lemma ThroughStoreShows(b: Bank, p: Port, op: StoreOp, way: nat, turns: seq<Turn>, addr: nat)
    requires BankOk(b, p.fabric) && OverThrough(b, op, way) && PortOk(p) && p.slot.None? && Quiet(p.fabric, None)
    ensures var q := Play(p, RequestFor(op), [Retry] + turns);
            if q.answer.None? then View(b, q.port.fabric, addr) == View(b, p.fabric, addr)
            else
              var r := UpdateLine(b, op, way, false);
              q.answer.value.Done? && BankOk(r, q.port.fabric) &&
              View(r, q.port.fabric, addr) == AfterStore(op, addr, View(b, p.fabric, addr))
  {
    hide BankOk, View, CommitStore, FabricOk, UpdateLine, Quiet, Play, HitAt, LineBase, CachesLine;
    var q := Play(p, RequestFor(op), [Retry] + turns);
    StoreIsOneStep(p, op, turns);
    if q.answer.None? {
      ThroughOpen(b, p.fabric, q.port.fabric, op, way, addr);
    } else {
      ThroughDone(b, p.fabric, q.port.fabric, op, way, addr);
    }
  }

  predicate OverPast(b: Bank, op: StoreOp) {
    BankShape(b) && b.pending.None? && Lookup(b, op.addr).None? && Fits(b.config, op) &&
    (op.width == 1 || op.width == 2 || op.width == 4)
  }

  /** A store past a bank at rest: its bytes may show before it is answered; when it is
      answered without an error exactly they have changed. */
  lemma PastStoreShows(b: Bank, p: Port, op: StoreOp, turns: seq<Turn>, addr: nat)
    requires BankOk(b, p.fabric) && OverPast(b, op) && PortOk(p) && p.slot.None? && Quiet(p.fabric, None)
    ensures var q, c := Play(p, RequestFor(op), [Retry] + turns), CommitStore(p.fabric, op, false);
            var before, after := View(b, p.fabric, addr), View(b, q.port.fabric, addr);
            if q.answer.None? then after == before || after == View(b, c.fabric, addr)
            else BankOk(b, q.port.fabric) && (q.answer.value.Done? ==> after == AfterStore(op, addr, before))
  {
    hide BankOk, View, CommitStore, FabricOk, Quiet, Play, LineBase, Lookup;
    var q, c := Play(p, RequestFor(op), [Retry] + turns), CommitStore(p.fabric, op, false);
    StoreIsOneStep(p, op, turns);
    StorePast(b, p.fabric, op, false, addr);
    SameOrSame(b, p.fabric, q.port.fabric, c.fabric, addr);
    if q.answer.Some? { SameMemoryOk(b, c.fabric, q.port.fabric); }
  }

  lemma SameOrSame(b: Bank, f: Fabric, g: Fabric, h: Fabric, addr: nat)
    requires BankShape(b)
    ensures g.bytes == f.bytes ==> View(b, g, addr) == View(b, f, addr)
    ensures g.bytes == h.bytes ==> View(b, g, addr) == View(b, h, addr)
  {
  }
}
