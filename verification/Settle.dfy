/** A finished translation settles: asked again, the walker gives the same address at
    once, touching neither its own state nor the bus. A core that repeats a translation
    because the access after it was told Busy relies on this. */
module Settle {
  import opened Wrappers
  import opened Isa
  import opened CsrState
  import opened CpuBus
  import opened Mmu
  import opened Sv32
  import opened WalkerProof

  /** These flags let the request through without another A/D write, and the physical
      address is the one an entry made from it gives back. */
  predicate Lands(request: Request, level: WalkLevel, flags: Word, physical: Word) {
    PermissionsAllow(request, flags) && !NeedsUpdate(request.access, flags) &&
    Rebase(physical, request.va, level) == physical
  }

  /** What the walker keeps between calls: its walk was started because the TLB had no
      answer, and a pending leaf write will land. */
  predicate WalkReady(w: Walker) {
    w.next < TLB_ENTRY_COUNT && WalkEnabled(w) &&
    (w.active.Some? ==>
       LookupFrom(w.tlb, w.active.value.request, 0, false).None? &&
       (w.active.value.phase.WriteLeaf? ==>
          Lands(w.active.value.request, w.active.value.level, w.active.value.phase.flags, w.active.value.phase.physical)))
  }

  lemma ResetReady()
    ensures WalkReady(RESET_WALKER)
  {
  }

  /* ---------- what an inserted entry answers ---------- */

  lemma {:induction false} LookupInserted(tlb: seq<Option<TlbEntry>>, i: nat, e: TlbEntry, request: Request, k: nat)
    requires k <= i < |tlb|
    requires LookupFrom(tlb, request, k, false).None?
    requires EntryMatches(e, request) && PermissionsAllow(request, e.flags) && !NeedsUpdate(request.access, e.flags)
    ensures LookupFrom(tlb[i := Some(e)], request, k, false) == Some(PhysicalAddress(EntryTranslate(e, request.va)))
    decreases i - k
  {
    hide EntryMatches, PermissionsAllow, NeedsUpdate, EntryTranslate, PageFault;
    var after := tlb[i := Some(e)];
    if k < i {
      assert after[k] == tlb[k];
      if tlb[k].Some? && EntryMatches(tlb[k].value, request) && !PermissionsAllow(request, tlb[k].value.flags) {
        FaultSticks(tlb, request, k + 1);
      }
      LookupInserted(tlb, i, e, request, k + 1);
    }
  }

  lemma {:induction false} FaultSticks(tlb: seq<Option<TlbEntry>>, request: Request, k: nat)
    requires k <= |tlb|
    ensures LookupFrom(tlb, request, k, true).Some?
    decreases |tlb| - k
  {
    hide EntryMatches, PermissionsAllow, NeedsUpdate, EntryTranslate, PageFault;
    if k < |tlb| {
      FaultSticks(tlb, request, k + 1);
    }
  }

  lemma NewEntryMatches(st: WalkState, flags: Word, physical: Word)
    ensures EntryMatches(NewEntry(st, flags, physical), st.request)
  {
    hide PageMask, PteGlobal;
  }

  lemma InsertAnswers(w: Walker, st: WalkState, flags: Word, physical: Word)
    requires w.next < TLB_ENTRY_COUNT && LookupFrom(w.tlb, st.request, 0, false).None?
    requires Lands(st.request, st.level, flags, physical)
    ensures var t := InsertTlb(w, st, flags, physical);
            t.next < TLB_ENTRY_COUNT && LookupFrom(t.tlb, st.request, 0, false) == Some(PhysicalAddress(physical))
  {
    NewEntryMatches(st, flags, physical);
    NewEntryTranslates(st, flags, physical, st.request.va);
    assert NewEntry(st, flags, physical).flags == flags;
    hide LookupFrom, NewEntry, EntryMatches, PermissionsAllow, NeedsUpdate, EntryTranslate, Rebase;
    LookupInserted(w.tlb, w.next, NewEntry(st, flags, physical), st.request, 0);
  }

  /* ---------- a leaf lands ---------- */

  lemma PageLands(ppn: Word, va: Word)
    ensures (PageAddress(ppn, va) & !PAGE_OFFSET_MASK) | (va & PAGE_OFFSET_MASK) == PageAddress(ppn, va)
  {
  }

  lemma SuperpageLands(ppn: Word, va: Word)
    ensures (SuperpageAddress(ppn, va) & !SUPERPAGE_OFFSET_MASK) | (va & SUPERPAGE_OFFSET_MASK) == SuperpageAddress(ppn, va)
  {
  }

  lemma LeafLands(va: Word, level: WalkLevel, pte: Word)
    requires TranslateLeaf(va, level, pte).Some?
    ensures var physical := TranslateLeaf(va, level, pte).value; Rebase(physical, va, level) == physical
  {
    PageLands(PtePpn(pte), va);
    SuperpageLands(PtePpn(pte), va);
    hide PageAddress, SuperpageAddress, PtePpn, SuperpageAligned;
  }

  lemma UpdatedLands(request: Request, flags: Word)
    requires PermissionsAllow(request, flags)
    ensures PermissionsAllow(request, Updated(request.access, flags))
    ensures !NeedsUpdate(request.access, Updated(request.access, flags))
  {
  }

  /* ---------- steps ---------- */

  /** What one turn of a walk leaves behind. */
  predicate Settles(st: WalkState, s: Stepped, drain: bool) {
    WalkReady(s.walker) &&
    (s.result.Ready? ==>
       s.walker.active.None? && !drain &&
       LookupFrom(s.walker.tlb, st.request, 0, false) == Some(PhysicalAddress(s.result.physical)))
  }

  lemma FinishSettles(w: Walker, bus: Bus, st: WalkState, drain: bool)
    requires WalkReady(w) && st.phase.WriteLeaf? && TranslationEnabled(st.request.satp, st.request.privilege)
    requires LookupFrom(w.tlb, st.request, 0, false).None?
    requires Lands(st.request, st.level, st.phase.flags, st.phase.physical)
    ensures Settles(st, FinishLeafUpdate(w, bus, st, drain), drain)
  {
    hide Store32, InsertTlb, LookupFrom, Lands, TranslationEnabled, AccessFault;
    InsertAnswers(w, st, st.phase.flags, st.phase.physical);
  }

  lemma StepLeafSettles(w: Walker, bus: Bus, st: WalkState, pte: Word, drain: bool)
    requires WalkReady(w) && TranslationEnabled(st.request.satp, st.request.privilege)
    requires LookupFrom(w.tlb, st.request, 0, false).None?
    ensures Settles(st, StepLeaf(w, bus, st, pte, drain), drain)
  {
    hide FinishLeafUpdate, InsertTlb, LookupFrom, PermissionsAllow, NeedsUpdate, TranslateLeaf, Rebase, Updated, PteFlags,
         TranslationEnabled, PageFault;
    var flags := PteFlags(pte);
    var leaf := TranslateLeaf(st.request.va, st.level, pte);
    if leaf.Some? && PermissionsAllow(st.request, flags) {
      LeafLands(st.request.va, st.level, pte);
      if NeedsUpdate(st.request.access, flags) {
        UpdatedLands(st.request, flags);
        FinishSettles(w, bus, st.(phase := WriteLeaf(leaf.value, Updated(st.request.access, flags),
                                                      Updated(st.request.access, pte))), drain);
      } else {
        InsertAnswers(w, st, flags, leaf.value);
      }
    }
  }

  lemma StepSettles(w: Walker, bus: Bus, drain: bool)
    requires WalkReady(w) && w.active.Some?
    ensures Settles(w.active.value, Step(w, bus, drain), drain)
  {
    hide Load32, FinishLeafUpdate, StepLeaf, LookupFrom, Lands, PteValid, PteLeaf, NonleafValid, PteGlobal,
         NextPteAddress, TranslationEnabled, PageFault, AccessFault;
    var st := w.active.value;
    if st.phase.WriteLeaf? {
      FinishSettles(w, bus, st, drain);
    } else {
      var r := Load32(bus, st.pteAddress);
      if r.answer.Ok? {
        StepLeafSettles(w, r.bus, st, r.answer.value, drain);
      }
    }
  }

  /** A call of `translate` keeps the walker's bookkeeping, and its answer, once an
      address, is repeated by every later call on any bus. */
  ghost predicate Settled(t: Translated, request: Request) {
    WalkReady(t.walker) &&
    (t.result.PhysicalAddress? ==>
       forall later: Bus :: Translate(t.walker, later, request) == Translated(t.walker, later, t.result))
  }

  lemma {:induction false} TranslateSettles(w: Walker, bus: Bus, request: Request)
    requires WalkReady(w)
    ensures Settled(Translate(w, bus, request), request)
    decreases LoopRank(w, request)
  {
    hide Step, LookupFrom, TranslationEnabled, Lands;
    if w.active.Some? && w.active.value.request != request {
      StepShape(w, bus, true);
      StepSettles(w, bus, true);
      var s := Step(w, bus, true);
      if !s.result.Waiting? { TranslateSettles(s.walker, s.bus, request); }
    } else if TranslationEnabled(request.satp, request.privilege) {
      LookupNeverStalls(w.tlb, request, 0, false);
      var started := if w.active.None? then w.(active := Some(FreshWalk(request))) else w;
      if w.active.Some? || LookupFrom(w.tlb, request, 0, false).None? {
        StepShape(started, bus, false);
        StepSettles(started, bus, false);
        var s := Step(started, bus, false);
        if s.result.Drained? { TranslateSettles(s.walker, s.bus, request); }
      }
    }
  }
}
