/** The cache bank updated in place, in front of the memory map. */
module CacheInPlace {
  import opened Wrappers
  import opened BusFabric
  import opened CachePort
  import opened Cache

  class CacheBank {
    const config: Config
    var sets: seq<CacheSet>
    var pending: Option<PendingLine>
    var accessEpoch: nat

    ghost function State(): Bank
      reads this
    {
      Bank(config, sets, pending, accessEpoch)
    }

    constructor (c: Config)
      requires c.Ok()
      ensures State() == FreshBank(c)
    {
      config := c;
      var empty := FreshBank(c);
      sets, pending, accessEpoch := empty.sets, None, 0;
    }

    method LookupWay(addr: nat) returns (way: Option<nat>)
      requires BankShape(State())
      ensures way == Lookup(State(), addr)
    {
      var lines, tag := sets[SetOf(config, addr)].lines, TagOf(config, addr);
      var k := 0;
      while k < |lines|
        invariant k <= |lines| && WayFrom(lines, tag, 0) == WayFrom(lines, tag, k)
      {
        if lines[k].valid && lines[k].tag == tag { return Some(k); }
        k := k + 1;
      }
      way := None;
    }

    method PutLine(set_: nat, way: nat, line: CacheLine)
      requires BankShape(State()) && set_ < config.sets && way < config.ways && LineShape(config, line)
      modifies this`sets
      ensures State() == WithLine(old(State()), set_, way, line)
    {
      sets := sets[set_ := sets[set_].(lines := sets[set_].lines[way := line])];
    }

    method TouchLine(set_: nat, way: nat)
      requires BankShape(State()) && set_ < config.sets && way < config.ways
      modifies this
      ensures State() == Touch(old(State()), set_, way)
    {
      accessEpoch := accessEpoch + 1;
      PutLine(set_, way, sets[set_].lines[way].(lastUsed := accessEpoch));
    }

    /** The first line with the least `lastUsed`. */
    static method OldestLine(lines: seq<CacheLine>) returns (way: nat)
      requires |lines| > 0
      ensures way < |lines| && way == LeastRecent(lines, 1, 0)
    {
      way := 0;
      var k := 1;
      while k < |lines|
        invariant way < k <= |lines| && forall j | 0 <= j < k :: lines[way].lastUsed <= lines[j].lastUsed
        invariant LeastRecent(lines, 1, 0) == LeastRecent(lines, k, way)
      {
        if lines[k].lastUsed < lines[way].lastUsed { way := k; }
        k := k + 1;
      }
    }

    method ChooseVictim(set_: nat) returns (way: nat)
      requires BankShape(State()) && set_ < config.sets
      modifies this`sets
      ensures Choice(State(), way) == SelectVictim(old(State()), set_)
    {
      var s := sets[set_];
      way := 0;
      while way < |s.lines| && s.lines[way].valid
        invariant way <= |s.lines| && FirstInvalid(s.lines, 0) == FirstInvalid(s.lines, way)
      {
        way := way + 1;
      }
      if way < |s.lines| {
        if !config.lru { sets := sets[set_ := s.(nextVictim := (way + 1) % config.ways)]; }
      } else if config.lru {
        way := OldestLine(s.lines);
      } else {
        way := s.nextVictim;
        sets := sets[set_ := s.(nextVictim := (s.nextVictim + 1) % config.ways)];
      }
    }

    method Start(addr: nat, kind: AccessKind)
      requires BankShape(State()) && pending.None?
      modifies this
      ensures State() == StartPending(old(State()), addr, kind)
    {
      var set_ := SetOf(config, addr);
      var victim := ChooseVictim(set_);
      var line := sets[set_].lines[victim];
      var saved: Option<PendingWriteBack> := None;
      if config.writeBack && line.valid && line.dirty {
        saved := Some(PendingWriteBack(BaseFor(config, set_, line.tag), line.words, None));
      }
      PutLine(set_, victim, line.(valid := false, dirty := false));
      pending := Some(PendingLine(saved, PendingRefill(LineBase(config, addr), set_, TagOf(config, addr), victim, kind, None)));
    }

    /** Drive a burst of the lower bus until it waits or ends. */
    method DriveUntilBlocked(port: MemoryMap, burst: Option<nat>, request: BurstRequest)
      returns (left: Option<nat>, outcome: Drive)
      requires FabricOk(port.State()) && request.Beats() > 0
      requires burst.Some? ==> BurstIndex(port.State(), burst.value).Some?
      modifies port
      ensures Driven(port.State(), left, outcome) == DriveBurst(old(port.State()), burst, request)
    {
      var id;
      if burst.Some? {
        id := burst.value;
      } else {
        SubmittedIsActive(port.State(), request);
        var submitted := port.Submit(request);
        match submitted {
          case Fault(e) => return None, Broken(e);
          case Done(given) => id := given;
        }
      }
      ghost var start := port.State();
      while true
        invariant FabricOk(port.State()) && BurstIndex(port.State(), id).Some?
        invariant DriveFrom(port.State(), id) == DriveFrom(start, id)
        decreases DriveRank(port.State(), id).0, DriveRank(port.State(), id).1
      {
        var index := port.IndexOf(id);
        match port.bursts[index.value].phase {
          case InFlight(_) => return Some(id), Blocked;
          case Accepted =>
            AdvanceDrives(port.State(), id);
            port.AdvanceBurst(index.value);
            if port.bursts[index.value].phase.InFlight? { return Some(id), Blocked; }
          case _ =>
            var response := port.Take(id);
            match response.value {
              case Done(value) => return None, Finished(value);
              case Fault(e) => return None, Broken(e);
            }
        }
      }
    }

    method ContinueOperation(port: MemoryMap) returns (reply: Reply<()>)
      requires BankShape(State()) && FabricOk(port.State()) && BurstsActive(State(), port.State())
      modifies this, port
      ensures Access(State(), port.State(), reply) == ContinuePending(old(State()), old(port.State()))
    {
      hide DriveBurst, FabricOk, Touch;
      if pending.None? { return Got(()); }
      var op := pending.value;
      pending := None;
      if op.writeBack.Some? {
        var wb := op.writeBack.value;
        DriveKeepsOk(port.State(), wb.burst, WriteWords(wb.base, wb.words));
        var left, outcome := DriveUntilBlocked(port, wb.burst, WriteWords(wb.base, wb.words));
        match outcome {
          case Blocked =>
            pending := Some(op.(writeBack := Some(wb.(burst := left))));
            return Busy;
          case TurnedAway => return Busy;
          case Broken(e) => return Failure(e);
          case Finished(_) => op := op.(writeBack := None);
        }
      }
      var refill := op.refill;
      var left, outcome := DriveUntilBlocked(port, refill.burst, ReadWords(refill.base, config.words, refill.kind));
      match outcome {
        case Blocked =>
          pending := Some(op.(refill := refill.(burst := left)));
          reply := Busy;
        case TurnedAway => reply := Busy;
        case Broken(e) => reply := Failure(e);
        case Finished(response) =>
          if response.WordsRead? && |response.words| == config.words {
            var line := sets[refill.set_].lines[refill.way];
            PutLine(refill.set_, refill.way, line.(valid := true, dirty := false, tag := refill.tag, words := response.words));
            TouchLine(refill.set_, refill.way);
            reply := Got(());
          } else {
            reply := Busy;
          }
      }
    }

    method Refill(port: MemoryMap, addr: nat, kind: AccessKind) returns (reply: Reply<nat>)
      requires BankShape(State()) && pending.None? && FabricOk(port.State())
      modifies this, port
      ensures Access(State(), port.State(), reply) == Refilled(old(State()), old(port.State()), addr, kind)
    {
      hide StartPending, ContinuePending, Lookup, FabricOk;
      ghost var started := StartPending(State(), addr, kind);
      Start(addr, kind);
      var done := ContinueOperation(port);
      match done {
        case Busy => reply := Busy;
        case Failure(e) => reply := Failure(e);
        case Got(_) =>
          InstalledIsFound(State(), started.pending.value.refill, addr);
          var hit := LookupWay(addr);
          reply := Got(hit.value);
      }
    }

    method Ensure(port: MemoryMap, addr: nat, kind: AccessKind) returns (reply: Reply<nat>)
      requires BankShape(State()) && FabricOk(port.State()) && BurstsActive(State(), port.State())
      modifies this, port
      ensures Access(State(), port.State(), reply) == EnsureLine(old(State()), old(port.State()), addr, kind)
    {
      hide ContinuePending, Lookup, Refilled, FabricOk;
      if pending.Some? && pending.value.refill.base != LineBase(config, addr) { return Busy; }
      var first := ContinueOperation(port);
      match first {
        case Busy => return Busy;
        case Failure(e) => return Failure(e);
        case Got(_) =>
      }
      var hit := LookupWay(addr);
      if hit.Some? { return Got(hit.value); }
      reply := Refill(port, addr, kind);
    }

    method LoadWord(port: MemoryMap, addr: nat, kind: AccessKind) returns (reply: Reply<Word4>)
      requires BankShape(State()) && FabricOk(port.State()) && BurstsActive(State(), port.State())
      modifies this, port
      ensures Access(State(), port.State(), reply) == LoadLine(old(State()), old(port.State()), addr, kind)
    {
      hide EnsureLine, FabricOk, Touch;
      var found := Ensure(port, addr, kind);
      match found {
        case Busy => reply := Busy;
        case Failure(e) => reply := Failure(e);
        case Got(way) =>
          var set_ := SetOf(config, addr);
          reply := Got(sets[set_].lines[way].words[WordIndex(config, addr)]);
          TouchLine(set_, way);
      }
    }

    method UpdateCached(op: StoreOp, way: nat, dirty: bool)
      requires BankShape(State()) && way < config.ways && Fits(config, op)
      modifies this
      ensures State() == UpdateLine(old(State()), op, way, dirty)
    {
      hide Touch;
      var set_ := SetOf(config, op.addr);
      var line := sets[set_].lines[way];
      PutLine(set_, way, CacheLine(true, dirty, TagOf(config, op.addr), Applied(config, line.words, op), line.lastUsed));
      TouchLine(set_, way);
    }

    /** Write the line in `way`, after the lower bus if the bank writes through. */
    method StoreInto(port: MemoryMap, op: StoreOp, way: nat, busy: bool) returns (reply: Reply<()>)
      requires BankShape(State()) && way < config.ways && op.width <= 4 && Fits(config, op)
      modifies this, port
      ensures Access(State(), port.State(), reply) == StoreHit(old(State()), old(port.State()), op, way, busy)
    {
      hide UpdateLine, CommitStore;
      if config.writeBack {
        UpdateCached(op, way, true);
        reply := Got(());
      } else {
        reply := Commit(port, op, busy);
        if reply.Got? { UpdateCached(op, way, false); }
      }
    }

    method Commit(port: MemoryMap, op: StoreOp, busy: bool) returns (reply: Reply<()>)
      requires op.width <= 4
      modifies port
      ensures Committing(port.State(), reply) == CommitStore(old(port.State()), op, busy)
    {
      var region := port.Locate(op.addr);
      if region.None? { return Failure(Unmapped(op.addr)); }
      if busy { return Busy; }
      var stored := StoreFrom(Fabric(port.regions, port.latency, port.bytes, port.accesses, port.bursts, port.nextId),
                              region.value, op.addr, op.data, 0, op.width);
      port.bytes := stored.bytes;
      reply := if stored.fault.Some? then Failure(stored.fault.value) else Got(());
    }

    method Store(port: MemoryMap, op: StoreOp, busy: bool) returns (reply: Reply<()>)
      requires BankShape(State()) && FabricOk(port.State()) && BurstsActive(State(), port.State())
      requires op.width <= 4 && Fits(config, op)
      modifies this, port
      ensures Access(State(), port.State(), reply) == StoreLine(old(State()), old(port.State()), op, busy)
    {
      hide ContinuePending, Lookup, Refilled, FabricOk, CommitStore, StoreHit, CachesAddress, CachesLine;
      if !CachesAddress(config, op.addr) || !CachesLine(config, LineBase(config, op.addr)) {
        reply := Commit(port, op, busy);
        return;
      }
      if pending.Some? && pending.value.refill.base != LineBase(config, op.addr) { return Busy; }
      reply := ContinueOperation(port);
      if !reply.Got? { return; }
      var hit := LookupWay(op.addr);
      if hit.Some? {
        reply := StoreInto(port, op, hit.value, busy);
      } else if !config.writeAllocate {
        reply := Commit(port, op, busy);
      } else {
        var filled := Refill(port, op.addr, LoadAccess);
        match filled {
          case Busy => reply := Busy;
          case Failure(e) => reply := Failure(e);
          case Got(way) => reply := StoreInto(port, op, way, busy);
        }
      }
    }
  }
}
