/** Every answer of the incremental walker, from the TLB, from a fresh walk or from a
    walk resumed after any number of Busy answers, is the answer of the two-level walk. */
module WalkerProof {
  import opened Wrappers
  import opened Isa
  import opened CsrState
  import opened CpuBus
  import opened Mmu
  import opened Sv32

  /* ---------- aligned cells ---------- */

  lemma RootAligned(satp: Word, va: Word)
    ensures RootPteAddress(satp, va) & 3 == 0
  {
  }

  lemma NextAligned(pte: Word, va: Word)
    ensures NextPteAddress(pte, va) & 3 == 0
  {
  }

  lemma AlignedCell(a: Word)
    requires a & 3 == 0
    ensures CellOf(a) == Cell(a)
  {
  }

  lemma FullMask(x: Word, v: Word)
    ensures (x & !0xffff_ffff) | (v & 0xffff_ffff) == v
  {
  }

  lemma LoadAligned(bus: Bus, a: Word)
    requires a & 3 == 0
    ensures var r := Load32(bus, a);
            r.bus == bus.Called() &&
            if bus.IsBusy() then r.answer == Err(Busy)
            else if Cell(a) in bus.mem then r.answer == Ok(bus.mem[Cell(a)]) else r.answer == Err(Unmapped)
  {
    AlignedCell(a);
  }

  lemma StoreAligned(bus: Bus, a: Word, v: Word)
    requires a & 3 == 0 && Cell(a) in bus.mem
    ensures var r := Store32(bus, a, v);
            if bus.IsBusy() then r == Reply(bus.Called(), Err(Busy))
            else if Cell(a) in bus.readOnly then r == Reply(bus.Called(), Err(ReadOnly))
            else r == Reply(bus.Called().(mem := bus.mem[Cell(a) := v]), Ok(()))
  {
    AlignedCell(a);
    FullMask(bus.mem[Cell(a)], v);
  }

  /* ---------- a walk in progress ---------- */

  /** The walk has followed the tables from the root down to its present entry. */
  predicate Pointed(mem: Memory, st: WalkState) {
    var root := Cell(RootPteAddress(st.request.satp, st.request.va));
    if st.level == 1 then st.pteAddress == root.addr && !st.globalMapping
    else
      root in mem && PteValid(mem[root]) && !PteLeaf(mem[root]) && NonleafValid(mem[root]) &&
      st.pteAddress == NextPteAddress(mem[root], st.request.va) && st.globalMapping == PteGlobal(mem[root])
  }

  predicate LeafPending(mem: Memory, st: WalkState)
    requires st.phase.WriteLeaf?
  {
    Cell(st.pteAddress) in mem &&
    var pte := mem[Cell(st.pteAddress)];
    PteValid(pte) && PteLeaf(pte) &&
    TranslateLeaf(st.request.va, st.level, pte) == Some(st.phase.physical) &&
    PermissionsAllow(st.request, PteFlags(pte)) && NeedsUpdate(st.request.access, PteFlags(pte)) &&
    st.phase.flags == Updated(st.request.access, PteFlags(pte)) && st.phase.value == Updated(st.request.access, pte)
  }

  predicate WalkOk(mem: Memory, st: WalkState) {
    Pointed(mem, st) && (st.phase.WriteLeaf? ==> LeafPending(mem, st))
  }

  lemma PointedAligned(mem: Memory, st: WalkState)
    requires Pointed(mem, st)
    ensures st.pteAddress & 3 == 0
  {
    hide RootPteAddress, NextPteAddress, PteValid, PteLeaf, NonleafValid, PteGlobal;
    RootAligned(st.request.satp, st.request.va);
    var root := Cell(RootPteAddress(st.request.satp, st.request.va));
    if root in mem { NextAligned(mem[root], st.request.va); }
  }

  /** What the whole walk resolves to, given the entry this walk has reached. */
  lemma PointedResolves(mem: Memory, st: WalkState)
    requires Pointed(mem, st)
    ensures var r := Resolve(mem, st.request.satp, st.request.va);
            match CellAt(mem, st.pteAddress)
            case None => r == NoAccess
            case Some(pte) =>
              if !PteValid(pte) then r == NoPage
              else if PteLeaf(pte) then r == Leaf(st.level, st.pteAddress, pte, st.globalMapping || PteGlobal(pte))
              else !NonleafValid(pte) || st.level == 0 ==> r == NoPage
  {
    hide RootPteAddress, NextPteAddress, PteValid, PteLeaf, NonleafValid, PteGlobal;
  }

  /** The bookkeeping a walker keeps between calls. */
  ghost predicate Sound(w: Walker, mem: Memory, readOnly: set<Cell>, spaces: set<Word>) {
    TlbCoherent(w.tlb, mem, readOnly, spaces) && GlobalsShared(mem, readOnly, spaces) &&
    (w.active.Some? ==> w.active.value.request.satp in spaces && WalkOk(mem, w.active.value))
  }

  /* ---------- filling the TLB ---------- */

  lemma FlagsGlobal(pte: Word)
    ensures PteGlobal(PteFlags(pte)) == PteGlobal(pte)
  {
  }

  lemma NewEntryTranslates(st: WalkState, flags: Word, physical: Word, va: Word)
    ensures EntryTranslate(NewEntry(st, flags, physical), va) == Rebase(physical, va, st.level)
  {
  }

  lemma NewEntryCovers(st: WalkState, flags: Word, physical: Word, satp: Word, va: Word)
    requires Covers(NewEntry(st, flags, physical), satp, va)
    ensures SamePage(st.level, st.request.va, va)
    ensures satp == st.request.satp || NewEntry(st, flags, physical).globalMapping
  {
  }

  lemma NewEntryCoherent(st: WalkState, pte: Word, physical: Word, mem: Memory, readOnly: set<Cell>, spaces: set<Word>)
    requires GlobalsShared(mem, readOnly, spaces) && st.request.satp in spaces
    requires Resolve(mem, st.request.satp, st.request.va)
          == Leaf(st.level, st.pteAddress, pte, st.globalMapping || PteGlobal(pte))
    requires TranslateLeaf(st.request.va, st.level, pte) == Some(physical)
    ensures EntryCoherent(NewEntry(st, PteFlags(pte), physical), mem, readOnly, spaces)
  {
    var e := NewEntry(st, PteFlags(pte), physical);
    FlagsGlobal(pte);
    hide Resolve, Covers, SamePage, PteFlags, PteGlobal, TranslateLeaf, EntryTranslate, SameButAd, AdWithin, Rebase;
    forall satp, va | satp in spaces && Covers(e, satp, va)
      ensures AgreesAt(e, mem, readOnly, satp, va)
    {
      NewEntryCovers(st, PteFlags(pte), physical, satp, va);
      NewEntryTranslates(st, PteFlags(pte), physical, va);
      ResolveSamePage(mem, st.request.satp, st.request.va, va);
      TranslateSamePage(st.level, pte, st.request.va, va);
      AdReflexive(PteFlags(pte));
      var r, s := Resolve(mem, st.request.satp, va), Resolve(mem, satp, va);
      if satp != st.request.satp {
        assert SharedLeaf(r, s, readOnly);
        SameButAdFacts(r.pte, s.pte, st.request, va, r.level);
      }
    }
  }

  /* ---------- one step ---------- */

  /** What a step may do to memory and to the walker, and what it may answer. */
  ghost predicate StepSound(w: Walker, bus: Bus, s: Stepped, request: Request, spaces: set<Word>) {
    s.bus.readOnly == bus.readOnly && Grown(bus.mem, bus.readOnly, s.bus.mem) &&
    Sound(s.walker, s.bus.mem, bus.readOnly, spaces) &&
    (s.result.Ready? ==> Outcome(bus.mem, bus.readOnly, request) == PhysicalAddress(s.result.physical)) &&
    (s.result.Failed? ==> Outcome(bus.mem, bus.readOnly, request) == Faulted(s.result.trap))
  }

  lemma InsertSound(w: Walker, st: WalkState, flags: Word, physical: Word, mem: Memory, readOnly: set<Cell>, spaces: set<Word>)
    requires TlbCoherent(w.tlb, mem, readOnly, spaces)
    requires EntryCoherent(NewEntry(st, flags, physical), mem, readOnly, spaces)
    ensures TlbCoherent(InsertTlb(w, st, flags, physical).tlb, mem, readOnly, spaces)
  {
    hide EntryCoherent, NewEntry;
  }

  lemma GrownStore(mem: Memory, readOnly: set<Cell>, a: Cell, access: Access)
    requires a in mem && a !in readOnly && PteLeaf(mem[a])
    ensures Grown(mem, readOnly, mem[a := Updated(access, mem[a])])
  {
    hide PteLeaf, AdSet, Updated;
    UpdateFacts(mem[a], access);
    var later := mem[a := Updated(access, mem[a])];
    forall x | x in mem
      ensures CellGrown(mem, readOnly, later, x)
    {
    }
    assert later.Keys == mem.Keys;
  }

  /** The pending leaf write: it is retried while Busy, refused on read-only memory,
      and otherwise sets the A and D bits of the very entry the walk resolved to. */
  lemma FinishSound(w: Walker, bus: Bus, st: WalkState, drain: bool, spaces: set<Word>)
    requires Sound(w, bus.mem, bus.readOnly, spaces) && st.request.satp in spaces
    requires st.phase.WriteLeaf? && WalkOk(bus.mem, st)
    ensures StepSound(w, bus, FinishLeafUpdate(w, bus, st, drain), st.request, spaces)
  {
    PointedAligned(bus.mem, st);
    StoreAligned(bus, st.pteAddress, st.phase.value);
    PointedResolves(bus.mem, st);
    FinishCases(w, bus, st, drain, spaces);
  }

  lemma FinishCases(w: Walker, bus: Bus, st: WalkState, drain: bool, spaces: set<Word>)
    requires Sound(w, bus.mem, bus.readOnly, spaces) && st.request.satp in spaces
    requires st.phase.WriteLeaf? && WalkOk(bus.mem, st)
    requires st.pteAddress & 3 == 0
    ensures StepSound(w, bus, FinishLeafUpdate(w, bus, st, drain), st.request, spaces)
  {
    hide TlbCoherent, GlobalsShared, Grown, Store32, Resolve, PteValid, PteLeaf, PteGlobal, PteFlags, NonleafValid, TranslateLeaf,
         PermissionsAllow, NeedsUpdate, Updated, RootPteAddress, NextPteAddress, NewEntry, InsertTlb, PageFault, AccessFault;
    var a, pte := Cell(st.pteAddress), bus.mem[Cell(st.pteAddress)];
    StoreAligned(bus, st.pteAddress, st.phase.value);
    PointedResolves(bus.mem, st);
    GrownReflexive(bus.mem, bus.readOnly);
    if !bus.IsBusy() && a !in bus.readOnly {
      var later := bus.mem[a := st.phase.value];
      GrownStore(bus.mem, bus.readOnly, a, st.request.access);
      TlbCoherentGrown(w.tlb, bus.mem, bus.readOnly, later, spaces);
      GlobalsSharedGrown(bus.mem, bus.readOnly, later, spaces);
      UpdatedLeaf(bus.mem, bus.readOnly, later, st);
      FlagsOfUpdated(st, pte);
      NewEntryCoherent(st, st.phase.value, st.phase.physical, later, bus.readOnly, spaces);
      InsertSound(w, st, st.phase.flags, st.phase.physical, later, bus.readOnly, spaces);
    }
  }

  lemma FlagsOfUpdated(st: WalkState, pte: Word)
    ensures PteFlags(Updated(st.request.access, pte)) == Updated(st.request.access, PteFlags(pte))
  {
    UpdateFacts(pte, st.request.access);
  }

  /** After the write, the walk's page resolves to the updated entry. */
  lemma UpdatedLeaf(mem: Memory, readOnly: set<Cell>, later: Memory, st: WalkState)
    requires st.phase.WriteLeaf? && WalkOk(mem, st) && Grown(mem, readOnly, later)
    requires later == mem[Cell(st.pteAddress) := st.phase.value]
    ensures Resolve(later, st.request.satp, st.request.va)
         == Leaf(st.level, st.pteAddress, st.phase.value, st.globalMapping || PteGlobal(st.phase.value))
    ensures TranslateLeaf(st.request.va, st.level, st.phase.value) == Some(st.phase.physical)
  {
    hide Grown, Resolve, PteValid, PteLeaf, PteGlobal, PteFlags, NonleafValid, TranslateLeaf, SameButAd, AdWithin,
         PermissionsAllow, NeedsUpdate, Updated, RootPteAddress, NextPteAddress;
    var pte := mem[Cell(st.pteAddress)];
    UpdateFacts(pte, st.request.access);
    SameButAdFacts(pte, st.phase.value, st.request, st.request.va, st.level);
    ResolveGrown(mem, readOnly, later, st.request.satp, st.request.va);
    PointedResolves(mem, st);
    assert Resolve(mem, st.request.satp, st.request.va)
        == Leaf(st.level, st.pteAddress, pte, st.globalMapping || PteGlobal(pte));
    ResolvedPte(later, st.request.satp, st.request.va);
  }

  lemma ResolvedPte(mem: Memory, satp: Word, va: Word)
    ensures var r := Resolve(mem, satp, va); r.Leaf? ==> Cell(r.addr) in mem && mem[Cell(r.addr)] == r.pte
  {
    hide PteValid, PteLeaf, PteGlobal, NonleafValid, RootPteAddress, NextPteAddress;
  }

  lemma StepLeafSound(w: Walker, bus: Bus, after: Bus, st: WalkState, pte: Word, drain: bool, spaces: set<Word>)
    requires Sound(w, bus.mem, bus.readOnly, spaces) && st.request.satp in spaces
    requires st.phase.ReadPte? && WalkOk(bus.mem, st)
    requires after.mem == bus.mem && after.readOnly == bus.readOnly
    requires Cell(st.pteAddress) in bus.mem && pte == bus.mem[Cell(st.pteAddress)] && PteValid(pte) && PteLeaf(pte)
    ensures StepSound(w, bus, StepLeaf(w, after, st, pte, drain), st.request, spaces)
  {
    hide TlbCoherent, GlobalsShared, Grown, FinishLeafUpdate, Resolve, PteValid, PteLeaf, PteGlobal, PteFlags, NonleafValid, TranslateLeaf,
         PermissionsAllow, NeedsUpdate, Updated, RootPteAddress, NextPteAddress, NewEntry, InsertTlb, PageFault, AccessFault;
    PointedResolves(bus.mem, st);
    GrownReflexive(bus.mem, bus.readOnly);
    var flags := PteFlags(pte);
    var leaf := TranslateLeaf(st.request.va, st.level, pte);
    if leaf.Some? && PermissionsAllow(st.request, flags) {
      if NeedsUpdate(st.request.access, flags) {
        FinishSound(w, after, st.(phase := WriteLeaf(leaf.value, Updated(st.request.access, flags),
                                                     Updated(st.request.access, pte))), drain, spaces);
      } else {
        NewEntryCoherent(st, pte, leaf.value, bus.mem, bus.readOnly, spaces);
        InsertSound(w, st, flags, leaf.value, bus.mem, bus.readOnly, spaces);
      }
    }
  }

  lemma StepIsSound(w: Walker, bus: Bus, drain: bool, spaces: set<Word>)
    requires Sound(w, bus.mem, bus.readOnly, spaces) && w.active.Some?
    ensures StepSound(w, bus, Step(w, bus, drain), w.active.value.request, spaces)
  {
    hide TlbCoherent, GlobalsShared, Grown, FinishLeafUpdate, StepLeaf, Load32, Resolve, PteValid, PteLeaf, PteGlobal, NonleafValid,
         RootPteAddress, NextPteAddress, PageFault, AccessFault;
    var st := w.active.value;
    GrownReflexive(bus.mem, bus.readOnly);
    if st.phase.WriteLeaf? {
      FinishSound(w, bus, st, drain, spaces);
    } else {
      PointedAligned(bus.mem, st);
      LoadAligned(bus, st.pteAddress);
      PointedResolves(bus.mem, st);
      var r := Load32(bus, st.pteAddress);
      if r.answer.Ok? && PteValid(r.answer.value) && PteLeaf(r.answer.value) {
        StepLeafSound(w, bus, r.bus, st, r.answer.value, drain, spaces);
      }
    }
  }

  /* ---------- the whole translation ---------- */

  /** For every walker state reached by translations alone and every pattern of Busy
      answers, an answer other than Stall is the architectural outcome; memory changes
      only in A and D bits, and the walker stays coherent with it. */
  lemma {:induction false} TranslateIsSv32(w: Walker, bus: Bus, request: Request, spaces: set<Word>)
    requires Sound(w, bus.mem, bus.readOnly, spaces) && request.satp in spaces
    ensures var t := Translate(w, bus, request);
            t.bus.readOnly == bus.readOnly && Grown(bus.mem, bus.readOnly, t.bus.mem) &&
            Sound(t.walker, t.bus.mem, bus.readOnly, spaces) &&
            (!t.result.Stall? ==>
               t.result == if TranslationEnabled(request.satp, request.privilege)
                           then Outcome(bus.mem, bus.readOnly, request) else PhysicalAddress(request.va))
    decreases LoopRank(w, request), 0
  {
    hide Step, TlbCoherent, GlobalsShared, Grown, Outcome, WalkOk, LookupFrom, TranslationEnabled;
    GrownReflexive(bus.mem, bus.readOnly);
    if w.active.Some? && w.active.value.request != request {
      StepShape(w, bus, true);
      StepIsSound(w, bus, true, spaces);
      var s := Step(w, bus, true);
      if !s.result.Waiting? { Continue(bus, s, request, spaces); }
    } else if TranslationEnabled(request.satp, request.privilege) {
      LookupSound(w.tlb, request, 0, false, bus.mem, bus.readOnly, spaces);
      FreshWalkOk(bus.mem, request);
      var started := if w.active.None? then w.(active := Some(FreshWalk(request))) else w;
      StepShape(started, bus, false);
      StepIsSound(started, bus, false, spaces);
      var s := Step(started, bus, false);
      if s.result.Drained? { Continue(bus, s, request, spaces); }
    }
  }

  lemma FreshWalkOk(mem: Memory, request: Request)
    ensures WalkOk(mem, FreshWalk(request))
  {
  }

  /** The rest of the loop after a step that grew memory. */
  lemma {:induction false} Continue(bus: Bus, s: Stepped, request: Request, spaces: set<Word>)
    requires s.bus.readOnly == bus.readOnly && Grown(bus.mem, bus.readOnly, s.bus.mem)
    requires Sound(s.walker, s.bus.mem, bus.readOnly, spaces) && request.satp in spaces
    ensures var t := Translate(s.walker, s.bus, request);
            t.bus.readOnly == bus.readOnly && Grown(bus.mem, bus.readOnly, t.bus.mem) &&
            Sound(t.walker, t.bus.mem, bus.readOnly, spaces) &&
            (!t.result.Stall? ==>
               t.result == if TranslationEnabled(request.satp, request.privilege)
                           then Outcome(bus.mem, bus.readOnly, request) else PhysicalAddress(request.va))
    decreases LoopRank(s.walker, request), 1
  {
    hide TlbCoherent, GlobalsShared, Grown, Outcome, WalkOk, Translate, TranslationEnabled;
    TranslateIsSv32(s.walker, s.bus, request, spaces);
    var t := Translate(s.walker, s.bus, request);
    GrownTransitive(bus.mem, bus.readOnly, s.bus.mem, t.bus.mem);
    AdWritesPreserveOutcomes(bus.mem, bus.readOnly, s.bus.mem, request);
  }
}
