/** Whole runs of the walker: interleaved translations, stores elsewhere in memory and
    fences, and the independence of the answers from the pattern of Busy answers. */
module WalkerRuns {
  import opened Wrappers
  import opened Isa
  import opened CsrState
  import opened CpuBus
  import opened Mmu
  import opened Sv32
  import opened WalkerProof

  /* ---------- stores that miss the page tables ---------- */

  /** Every entry a walk can read lies in `tables`. */
  ghost predicate TablesClosed(mem: Memory, tables: set<Cell>, spaces: set<Word>) {
    forall satp, va | satp in spaces :: WalkWithin(mem, tables, satp, va)
  }

  predicate WalkWithin(mem: Memory, tables: set<Cell>, satp: Word, va: Word) {
    var root := Cell(RootPteAddress(satp, va));
    root in tables &&
    (root in mem && PteValid(mem[root]) && !PteLeaf(mem[root]) && NonleafValid(mem[root]) ==>
       Cell(NextPteAddress(mem[root], va)) in tables)
  }

  ghost predicate SameTables(mem: Memory, later: Memory, tables: set<Cell>) {
    forall c | c in tables :: (c in mem <==> c in later) && (c in mem ==> later[c] == mem[c])
  }

  lemma SameTablesResolve(mem: Memory, later: Memory, tables: set<Cell>, satp: Word, va: Word)
    requires WalkWithin(mem, tables, satp, va) && SameTables(mem, later, tables)
    ensures Resolve(later, satp, va) == Resolve(mem, satp, va) && WalkWithin(later, tables, satp, va)
  {
    hide PteValid, PteLeaf, PteGlobal, NonleafValid, RootPteAddress, NextPteAddress;
  }

  lemma SameTablesWalk(mem: Memory, later: Memory, tables: set<Cell>, st: WalkState)
    requires WalkWithin(mem, tables, st.request.satp, st.request.va) && SameTables(mem, later, tables)
    requires WalkOk(mem, st)
    ensures WalkOk(later, st)
  {
    hide PteValid, PteLeaf, PteGlobal, NonleafValid, RootPteAddress, NextPteAddress, TranslateLeaf, PermissionsAllow,
         NeedsUpdate, PteFlags, Updated;
  }

  /** Memory may change anywhere outside the tables between two calls. */
  lemma StoresElsewhereKeepSound(w: Walker, mem: Memory, later: Memory, readOnly: set<Cell>, tables: set<Cell>, spaces: set<Word>)
    requires Sound(w, mem, readOnly, spaces) && TablesClosed(mem, tables, spaces) && SameTables(mem, later, tables)
    ensures Sound(w, later, readOnly, spaces) && TablesClosed(later, tables, spaces)
  {
    hide Resolve, WalkWithin, WalkOk, SharedLeaf, Covers, TranslateLeaf, SameButAd, AdWithin, PteFlags, PageMask, EntryTranslate,
         SameTables;
    forall satp, va | satp in spaces
      ensures Resolve(later, satp, va) == Resolve(mem, satp, va) && WalkWithin(later, tables, satp, va)
    {
      assert WalkWithin(mem, tables, satp, va);
      SameTablesResolve(mem, later, tables, satp, va);
    }
    if w.active.Some? {
      assert WalkWithin(mem, tables, w.active.value.request.satp, w.active.value.request.va);
      SameTablesWalk(mem, later, tables, w.active.value);
    }
    forall k | 0 <= k < |w.tlb| && w.tlb[k].Some?
      ensures EntryCoherent(w.tlb[k].value, later, readOnly, spaces)
    {
      assert EntryCoherent(w.tlb[k].value, mem, readOnly, spaces);
      var e := w.tlb[k].value;
      forall satp, va | satp in spaces && Covers(e, satp, va)
        ensures AgreesAt(e, later, readOnly, satp, va)
      {
        assert AgreesAt(e, mem, readOnly, satp, va);
      }
    }
    forall s, t, va | s in spaces && t in spaces && Resolve(later, s, va).Leaf? && Resolve(later, s, va).global
      ensures SharedLeaf(Resolve(later, s, va), Resolve(later, t, va), readOnly)
    {
      assert SharedLeaf(Resolve(mem, s, va), Resolve(mem, t, va), readOnly);
    }
  }

  lemma TablesClosedGrown(mem: Memory, readOnly: set<Cell>, later: Memory, tables: set<Cell>, spaces: set<Word>)
    requires TablesClosed(mem, tables, spaces) && Grown(mem, readOnly, later)
    ensures TablesClosed(later, tables, spaces)
  {
    hide PteValid, PteLeaf, PteGlobal, NonleafValid, RootPteAddress, NextPteAddress, Grown, AdSet;
    forall satp, va | satp in spaces
      ensures WalkWithin(later, tables, satp, va)
    {
      assert WalkWithin(mem, tables, satp, va);
      var root := Cell(RootPteAddress(satp, va));
      if root in mem {
        CellFacts(mem, readOnly, later, root);
      } else {
        SameKeys(mem, readOnly, later, root);
      }
    }
  }

  lemma SameKeys(mem: Memory, readOnly: set<Cell>, later: Memory, c: Cell)
    requires Grown(mem, readOnly, later)
    ensures c in mem <==> c in later
  {
  }

  /* ---------- runs ---------- */

  /** One thing that happens between walker and memory: the core asks for a
      translation; something else stores outside the tables; or, with no walk active,
      software rewrites page tables and orders the change with a fence. */
  datatype Event =
    | Ask(request: Request)
    | Elsewhere(mem: Memory)
    | Rewrite(mem: Memory, fence: TranslationFence)

  datatype Point = Point(walker: Walker, bus: Bus)

  function After(p: Point, e: Event): Point {
    match e
    case Ask(request) => var t := Translate(p.walker, p.bus, request); Point(t.walker, t.bus)
    case Elsewhere(mem) => p.(bus := p.bus.(mem := mem))
    case Rewrite(mem, fence) => Point(FlushFence(p.walker, fence), p.bus.(mem := mem))
  }

  ghost predicate Allowed(p: Point, e: Event, tables: set<Cell>, spaces: set<Word>) {
    match e
    case Ask(request) => request.satp in spaces
    case Elsewhere(mem) => SameTables(p.bus.mem, mem, tables)
    case Rewrite(mem, fence) =>
      p.walker.active.None? && RewroteOnlyFenced(p.bus.mem, mem, p.bus.readOnly, spaces, fence) &&
      GlobalsShared(mem, p.bus.readOnly, spaces) && TablesClosed(mem, tables, spaces)
  }

  ghost predicate AllowedRun(p: Point, events: seq<Event>, tables: set<Cell>, spaces: set<Word>)
    decreases |events|
  {
    events != [] ==> Allowed(p, events[0], tables, spaces) && AllowedRun(After(p, events[0]), events[1..], tables, spaces)
  }

  /** The answer at this point is the one the page tables of this moment give. */
  predicate AnswersRight(p: Point, e: Event) {
    e.Ask? ==>
      var answer := Translate(p.walker, p.bus, e.request).result;
      answer.Stall? ||
      answer == if TranslationEnabled(e.request.satp, e.request.privilege)
                then Outcome(p.bus.mem, p.bus.readOnly, e.request) else PhysicalAddress(e.request.va)
  }

  ghost predicate RunAnswersRight(p: Point, events: seq<Event>)
    decreases |events|
  {
    events != [] ==> AnswersRight(p, events[0]) && RunAnswersRight(After(p, events[0]), events[1..])
  }

  /** Over every run, every answer other than Stall is architecturally right. */
  lemma {:induction false} EveryRunAnswersRight(p: Point, events: seq<Event>, tables: set<Cell>, spaces: set<Word>)
    requires Sound(p.walker, p.bus.mem, p.bus.readOnly, spaces) && TablesClosed(p.bus.mem, tables, spaces)
    requires AllowedRun(p, events, tables, spaces)
    ensures RunAnswersRight(p, events)
    decreases |events|
  {
    hide Translate, Outcome, TlbCoherent, GlobalsShared, WalkOk, TablesClosed, SameTables, Grown, RewroteOnlyFenced,
         FlushTlb, TranslationEnabled;
    if events != [] {
      match events[0] {
      case Ask(request) =>
        TranslateIsSv32(p.walker, p.bus, request, spaces);
        var t := Translate(p.walker, p.bus, request);
        TablesClosedGrown(p.bus.mem, p.bus.readOnly, t.bus.mem, tables, spaces);
      case Elsewhere(mem) =>
        StoresElsewhereKeepSound(p.walker, p.bus.mem, mem, p.bus.readOnly, tables, spaces);
      case Rewrite(mem, fence) =>
        FenceRestoresCoherence(p.walker.tlb, fence, p.bus.mem, mem, p.bus.readOnly, spaces);
      }
      EveryRunAnswersRight(After(p, events[0]), events[1..], tables, spaces);
    }
  }

  /** A reset walker over any page tables is a legal start of such a run. */
  lemma ResetIsSound(mem: Memory, readOnly: set<Cell>, spaces: set<Word>)
    requires GlobalsShared(mem, readOnly, spaces)
    ensures Sound(RESET_WALKER, mem, readOnly, spaces)
  {
    hide GlobalsShared;
  }

  /* ---------- independence of the Busy pattern ---------- */

  const NEVER: nat -> bool := (call: nat) => false

  /** The zero-wait bus over the same memory. */
  function ZeroWait(bus: Bus): Bus { Bus(bus.mem, bus.readOnly, 0, NEVER) }

  predicate SameStep(s: Stepped, z: Stepped) {
    s.walker == z.walker && s.bus.mem == z.bus.mem && s.bus.readOnly == z.bus.readOnly && s.result == z.result
  }

  predicate SameTranslated(t: Translated, z: Translated) {
    t.walker == z.walker && t.bus.mem == z.bus.mem && t.bus.readOnly == z.bus.readOnly && t.result == z.result
  }

  lemma LoadQuiet(bus: Bus, a: Word)
    ensures var r, z := Load32(bus, a), Load32(ZeroWait(bus), a);
            !z.answer.Waits() && r.bus.mem == z.bus.mem == bus.mem && r.bus.busy == bus.busy &&
            r.bus.readOnly == z.bus.readOnly == bus.readOnly && z.bus.busy == NEVER &&
            (r.answer == z.answer || (r.answer.Waits() && bus.busy != NEVER))
  {
    hide CellOf;
  }

  lemma StoreQuiet(bus: Bus, a: Word, v: Word)
    ensures var r, z := Store32(bus, a, v), Store32(ZeroWait(bus), a, v);
            !z.answer.Waits() && r.bus.readOnly == z.bus.readOnly == bus.readOnly && z.bus.busy == NEVER &&
            r.bus.busy == bus.busy &&
            ((r.answer == z.answer && r.bus.mem == z.bus.mem) ||
             (r.answer.Waits() && bus.busy != NEVER && r.bus.mem == bus.mem))
  {
    hide CellOf;
  }

  ghost predicate StepInsensitive(w: Walker, bus: Bus, s: Stepped, z: Stepped, drain: bool)
  {
    !z.result.Waiting? && z.bus.busy == NEVER && s.bus.busy == bus.busy && s.bus.readOnly == bus.readOnly &&
    if s.result.Waiting? then
      bus.busy != NEVER && s.bus.mem == bus.mem && s.walker.active.Some? &&
      SameStep(Step(s.walker, ZeroWait(bus), drain), z)
    else SameStep(s, z)
  }

  lemma FinishQuiet(w: Walker, bus: Bus, st: WalkState, drain: bool)
    requires st.phase.WriteLeaf?
    ensures StepInsensitive(w, bus, FinishLeafUpdate(w, bus, st, drain), FinishLeafUpdate(w, ZeroWait(bus), st, drain), drain)
  {
    hide Store32, InsertTlb, AccessFault, ZeroWait;
    StoreQuiet(bus, st.pteAddress, st.phase.value);
    InsertIgnoresActive(w, st);
  }

  lemma InsertIgnoresActive(w: Walker, st: WalkState)
    requires st.phase.WriteLeaf?
    ensures InsertTlb(w.(active := Some(st)), st, st.phase.flags, st.phase.physical).(active := None)
         == InsertTlb(w, st, st.phase.flags, st.phase.physical).(active := None)
  {
    hide NewEntry;
  }

  /** After the read, the rest of the step differs only in how its own store fares. */
  lemma StepLeafQuiet(w: Walker, bus: Bus, zbus: Bus, st: WalkState, pte: Word, drain: bool)
    requires zbus.mem == bus.mem && zbus.readOnly == bus.readOnly && zbus.busy == NEVER
    ensures StepInsensitive(w, bus, StepLeaf(w, bus, st, pte, drain), StepLeaf(w, zbus, st, pte, drain), drain)
  {
    hide FinishLeafUpdate, InsertTlb, PteFlags, TranslateLeaf, PermissionsAllow, NeedsUpdate, Updated, PageFault;
    var flags := PteFlags(pte);
    var leaf := TranslateLeaf(st.request.va, st.level, pte);
    if leaf.Some? && PermissionsAllow(st.request, flags) && NeedsUpdate(st.request.access, flags) {
      var write := st.(phase := WriteLeaf(leaf.value, Updated(st.request.access, flags), Updated(st.request.access, pte)));
      FinishQuiet(w, bus, write, drain);
      FinishQuiet(w, zbus, write, drain);
    }
  }

  /** A step that is told Busy can be taken again later, for the result it would have had. */
  lemma StepQuiet(w: Walker, bus: Bus, drain: bool)
    requires w.active.Some?
    ensures StepInsensitive(w, bus, Step(w, bus, drain), Step(w, ZeroWait(bus), drain), drain)
  {
    hide Load32, FinishLeafUpdate, StepLeaf, PteValid, PteLeaf, PteGlobal, NonleafValid, NextPteAddress, AccessFault, PageFault;
    var st := w.active.value;
    if st.phase.WriteLeaf? {
      FinishQuiet(w, bus, st, drain);
    } else {
      LoadQuiet(bus, st.pteAddress);
      var r, z := Load32(bus, st.pteAddress), Load32(ZeroWait(bus), st.pteAddress);
      if z.answer.Ok? {
        StepLeafQuiet(w, r.bus, z.bus, st, z.answer.value, drain);
      }
    }
  }

  ghost predicate Insensitive(w: Walker, bus: Bus, request: Request) {
    var t, z := Translate(w, bus, request), Translate(w, ZeroWait(bus), request);
    !z.result.Stall? && t.bus.busy == bus.busy && t.bus.readOnly == bus.readOnly &&
    if t.result.Stall? then
      bus.busy != NEVER && SameTranslated(Translate(t.walker, ZeroWait(t.bus), request), z)
    else SameTranslated(t, z)
  }

  /** Stalls do not change what a translation does: retrying after a Stall finishes
      with the walker, memory and answer the zero-wait bus would have given at once. */
  lemma {:induction false} TranslateIgnoresStalls(w: Walker, bus: Bus, request: Request)
    ensures Insensitive(w, bus, request)
    decreases LoopRank(w, request), 1
  {
    hide Step, LookupFrom, TranslationEnabled, ZeroWait;
    LookupNeverStalls(w.tlb, request, 0, false);
    if w.active.Some? && w.active.value.request != request {
      TurnIgnoresStalls(w, bus, request, true);
    } else if TranslationEnabled(request.satp, request.privilege)
              && (w.active.Some? || LookupFrom(w.tlb, request, 0, false).None?) {
      TurnIgnoresStalls(if w.active.None? then w.(active := Some(FreshWalk(request))) else w, bus, request, false);
    } else {
      ZeroWaitIdempotent(bus);
    }
  }

  lemma ZeroWaitIdempotent(bus: Bus)
    ensures ZeroWait(bus).mem == bus.mem && ZeroWait(bus).readOnly == bus.readOnly && ZeroWait(bus).busy == NEVER
    ensures ZeroWait(ZeroWait(bus)) == ZeroWait(bus)
  {
  }

  /** One turn of the loop, from a walker whose walk is active. */
  lemma {:induction false} TurnIgnoresStalls(w: Walker, bus: Bus, request: Request, drain: bool)
    requires w.active.Some? && (drain <==> w.active.value.request != request)
    requires !drain ==> TranslationEnabled(request.satp, request.privilege)
    ensures Insensitive(w, bus, request)
    decreases LoopRank(w, request), 0
  {
    hide Step, LookupFrom, TranslationEnabled, ZeroWait;
    StepShape(w, bus, drain);
    StepShape(w, ZeroWait(bus), drain);
    StepQuiet(w, bus, drain);
    ZeroWaitIdempotent(bus);
    var s, z := Step(w, bus, drain), Step(w, ZeroWait(bus), drain);
    if z.result.Drained? {
      TranslateIgnoresStalls(z.walker, z.bus, request);
      if s.result.Drained? {
        TranslateIgnoresStalls(s.walker, s.bus, request);
        assert ZeroWait(s.bus) == ZeroWait(z.bus) by { SameMemoryZeroWait(s.bus, z.bus); }
      } else {
        RetriedStep(w, bus, request, drain);
      }
    } else if s.result.Waiting? {
      RetriedStep(w, bus, request, drain);
    }
  }

  lemma SameMemoryZeroWait(b: Bus, c: Bus)
    requires b.mem == c.mem && b.readOnly == c.readOnly
    ensures ZeroWait(b) == ZeroWait(c)
  {
  }

  /** A turn that had to wait, taken again from the walker it left behind. */
  lemma {:induction false} RetriedStep(w: Walker, bus: Bus, request: Request, drain: bool)
    requires w.active.Some? && (drain <==> w.active.value.request != request)
    requires !drain ==> TranslationEnabled(request.satp, request.privilege)
    requires Step(w, bus, drain).result.Waiting?
    ensures var s := Step(w, bus, drain);
            SameTranslated(Translate(s.walker, ZeroWait(s.bus), request), Translate(w, ZeroWait(bus), request))
    decreases LoopRank(w, request), 0, 0
  {
    hide Step, LookupFrom, TranslationEnabled, ZeroWait;
    StepShape(w, bus, drain);
    StepShape(w, ZeroWait(bus), drain);
    StepQuiet(w, bus, drain);
    ZeroWaitIdempotent(bus);
    var s, z := Step(w, bus, drain), Step(w, ZeroWait(bus), drain);
    SameMemoryZeroWait(s.bus, bus);
    StepShape(s.walker, ZeroWait(bus), drain);
    var y := Step(s.walker, ZeroWait(bus), drain);
    StepQuiet(s.walker, ZeroWait(bus), drain);
    if z.result.Drained? {
      TranslateIgnoresStalls(z.walker, z.bus, request);
      TranslateIgnoresStalls(y.walker, y.bus, request);
      SameMemoryZeroWait(y.bus, z.bus);
    }
  }
}
