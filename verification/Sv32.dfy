/** The meaning of a translation: the two-level walk of sections 4.3.1 and 4.3.2 of
    the RISC-V Privileged Architecture, as one expression over memory, and the proof
    that the incremental walker with its TLB computes it. */
module Sv32 {
  import opened Wrappers
  import opened Isa
  import opened CsrState
  import opened CpuBus
  import opened Mmu

  /* ---------- the reference walk ---------- */

  datatype Resolution =
    | Leaf(level: WalkLevel, addr: Word, pte: Word, global: bool)
    | NoPage
    | NoAccess

  function CellAt(mem: Memory, addr: Word): Option<Word> {
    if Cell(addr) in mem then Some(mem[Cell(addr)]) else None
  }

  function ResolveNext(mem: Memory, addr: Word, global: bool): Resolution {
    match CellAt(mem, addr)
    case None => NoAccess
    case Some(pte) =>
      if PteValid(pte) && PteLeaf(pte) then Leaf(0, addr, pte, global || PteGlobal(pte)) else NoPage
  }

  function Resolve(mem: Memory, satp: Word, va: Word): Resolution {
    match CellAt(mem, RootPteAddress(satp, va))
    case None => NoAccess
    case Some(pte) =>
      if !PteValid(pte) then NoPage
      else if PteLeaf(pte) then Leaf(1, RootPteAddress(satp, va), pte, PteGlobal(pte))
      else if !NonleafValid(pte) then NoPage
      else ResolveNext(mem, NextPteAddress(pte, va), PteGlobal(pte))
  }

  function LeafOutcome(r: Resolution, readOnly: set<Cell>, request: Request): Translation
    requires r.Leaf?
  {
    var physical := TranslateLeaf(request.va, r.level, r.pte);
    if physical.None? || !PermissionsAllow(request, PteFlags(r.pte)) then Faulted(PageFault(request))
    else if NeedsUpdate(request.access, PteFlags(r.pte)) && Cell(r.addr) in readOnly then Faulted(AccessFault(request))
    else PhysicalAddress(physical.value)
  }

  /** What the architecture says the request translates to. */
  function Outcome(mem: Memory, readOnly: set<Cell>, request: Request): Translation {
    match Resolve(mem, request.satp, request.va)
    case NoAccess => Faulted(AccessFault(request))
    case NoPage => Faulted(PageFault(request))
    case Leaf(_, _, _, _) => LeafOutcome(Resolve(mem, request.satp, request.va), readOnly, request)
  }

  /* ---------- setting A and D bits ---------- */

  predicate SameButAd(x: Word, y: Word) { x & !(PTE_A | PTE_D) == y & !(PTE_A | PTE_D) }
  predicate AdWithin(x: Word, y: Word) { x & y & (PTE_A | PTE_D) == x & (PTE_A | PTE_D) }
  predicate AdSet(x: Word, y: Word) { SameButAd(x, y) && AdWithin(x, y) }

  /** The only difference is that some writable leaf entries had A or D bits set. */
  predicate CellGrown(mem: Memory, readOnly: set<Cell>, later: Memory, a: Cell)
    requires a in mem && a in later
  {
    later[a] == mem[a] || (a !in readOnly && PteLeaf(mem[a]) && AdSet(mem[a], later[a]))
  }

  ghost predicate Grown(mem: Memory, readOnly: set<Cell>, later: Memory) {
    mem.Keys == later.Keys && forall a | a in mem :: CellGrown(mem, readOnly, later, a)
  }

  lemma SameValid(x: Word, y: Word)
    requires SameButAd(x, y)
    ensures PteValid(x) == PteValid(y)
  {
  }

  lemma SameLeafBits(x: Word, y: Word)
    requires SameButAd(x, y)
    ensures PteLeaf(x) == PteLeaf(y)
  {
  }

  lemma SameGlobal(x: Word, y: Word)
    requires SameButAd(x, y)
    ensures PteGlobal(x) == PteGlobal(y)
  {
  }

  lemma SameKind(x: Word, y: Word)
    requires SameButAd(x, y)
    ensures PteValid(x) == PteValid(y) && PteLeaf(x) == PteLeaf(y) && PteGlobal(x) == PteGlobal(y)
  {
    hide SameButAd, PteValid, PteLeaf, PteGlobal;
    SameValid(x, y);
    SameLeafBits(x, y);
    SameGlobal(x, y);
  }

  lemma SamePpn(x: Word, y: Word)
    requires SameButAd(x, y)
    ensures PtePpn(x) == PtePpn(y)
  {
  }

  lemma SameFlags(x: Word, y: Word)
    requires SameButAd(x, y)
    ensures SameButAd(PteFlags(x), PteFlags(y))
  {
  }

  lemma SamePermissions(x: Word, y: Word, request: Request)
    requires SameButAd(x, y)
    ensures PermissionsAllow(request, x) == PermissionsAllow(request, y)
  {
  }

  lemma SameButAdFacts(x: Word, y: Word, request: Request, va: Word, level: WalkLevel)
    requires SameButAd(x, y)
    ensures PteValid(x) == PteValid(y) && PteLeaf(x) == PteLeaf(y) && PteGlobal(x) == PteGlobal(y)
    ensures TranslateLeaf(va, level, x) == TranslateLeaf(va, level, y)
    ensures SameButAd(PteFlags(x), PteFlags(y))
    ensures PermissionsAllow(request, PteFlags(x)) == PermissionsAllow(request, PteFlags(y))
  {
    hide PteValid, PteLeaf, PteGlobal, PtePpn, PteFlags, PermissionsAllow, SameButAd, PageAddress, SuperpageAddress;
    SameKind(x, y);
    SamePpn(x, y);
    SameFlags(x, y);
    SamePermissions(PteFlags(x), PteFlags(y), request);
  }

  lemma AdReflexive(x: Word)
    ensures AdSet(x, x)
  {
  }

  lemma AdTransitive(x: Word, y: Word, z: Word)
    requires AdSet(x, y) && AdSet(y, z)
    ensures AdSet(x, z)
  {
  }

  lemma SameButAdEquivalence(x: Word, y: Word, z: Word)
    ensures SameButAd(x, y) && SameButAd(y, z) ==> SameButAd(x, z)
    ensures SameButAd(x, y) ==> SameButAd(y, x)
  {
  }

  lemma UpdateFacts(x: Word, access: Access)
    ensures AdSet(x, Updated(access, x)) && PteLeaf(x) == PteLeaf(Updated(access, x))
    ensures PteFlags(Updated(access, x)) == Updated(access, PteFlags(x))
  {
  }

  lemma NoUpdateStays(x: Word, y: Word, access: Access)
    requires AdWithin(x, y) && !NeedsUpdate(access, x)
    ensures !NeedsUpdate(access, y)
  {
  }

  lemma GrownTransitive(a: Memory, readOnly: set<Cell>, b: Memory, c: Memory)
    requires Grown(a, readOnly, b) && Grown(b, readOnly, c)
    ensures Grown(a, readOnly, c)
  {
    hide SameButAd, AdWithin, PteLeaf;
    forall x | x in a
      ensures CellGrown(a, readOnly, c, x)
    {
      assert CellGrown(a, readOnly, b, x) && CellGrown(b, readOnly, c, x);
      if SameButAd(a[x], b[x]) { SameKind(a[x], b[x]); }
      AdReflexive(a[x]);
      if AdSet(a[x], b[x]) && AdSet(b[x], c[x]) { AdTransitive(a[x], b[x], c[x]); }
    }
  }

  lemma GrownReflexive(a: Memory, readOnly: set<Cell>)
    ensures Grown(a, readOnly, a)
  {
    hide AdSet, PteLeaf;
  }

  /** How two resolutions of the same page may differ after A/D updates. */
  predicate ResolutionGrown(r: Resolution, readOnly: set<Cell>, s: Resolution) {
    match r
    case Leaf(level, addr, pte, global) =>
      s.Leaf? && s.level == level && s.addr == addr && s.global == global && AdSet(pte, s.pte)
      && (Cell(addr) in readOnly ==> s.pte == pte)
    case _ => s == r
  }

  lemma ResolveGrown(mem: Memory, readOnly: set<Cell>, later: Memory, satp: Word, va: Word)
    requires Grown(mem, readOnly, later)
    ensures ResolutionGrown(Resolve(mem, satp, va), readOnly, Resolve(later, satp, va))
  {
    hide PteValid, PteLeaf, PteGlobal, NonleafValid, NextPteAddress, RootPteAddress, AdSet;
    var root := Cell(RootPteAddress(satp, va));
    if root in mem {
      CellFacts(mem, readOnly, later, root);
      var next := Cell(NextPteAddress(mem[root], va));
      if next in mem { CellFacts(mem, readOnly, later, next); }
    }
  }

  lemma CellFacts(mem: Memory, readOnly: set<Cell>, later: Memory, a: Cell)
    requires Grown(mem, readOnly, later) && a in mem
    ensures a in later && PteValid(mem[a]) == PteValid(later[a]) && PteLeaf(mem[a]) == PteLeaf(later[a])
    ensures PteGlobal(mem[a]) == PteGlobal(later[a]) && AdSet(mem[a], later[a])
    ensures !PteLeaf(mem[a]) || a in readOnly ==> later[a] == mem[a]
  {
    hide PteValid, PteLeaf, PteGlobal, SameButAd, AdWithin;
    assert CellGrown(mem, readOnly, later, a);
    AdReflexive(mem[a]);
    SameKind(mem[a], later[a]);
  }

  /** Setting A and D bits, on any writable leaf entry, changes no translation: no
      other walk, at either level, answers differently for it. */
  lemma AdWritesPreserveOutcomes(mem: Memory, readOnly: set<Cell>, later: Memory, request: Request)
    requires Grown(mem, readOnly, later)
    ensures Outcome(later, readOnly, request) == Outcome(mem, readOnly, request)
  {
    hide Resolve, Grown, PteFlags, PermissionsAllow, NeedsUpdate, TranslateLeaf, SameButAd, AdWithin, PageFault, AccessFault;
    ResolveGrown(mem, readOnly, later, request.satp, request.va);
    var r, s := Resolve(mem, request.satp, request.va), Resolve(later, request.satp, request.va);
    if r.Leaf? {
      SameButAdFacts(r.pte, s.pte, request, request.va, r.level);
    }
  }

  /* ---------- one page, many addresses ---------- */

  predicate SamePage(level: WalkLevel, x: Word, y: Word) { x & !PageMask(level) == y & !PageMask(level) }

  lemma SamePageIndices(level: WalkLevel, x: Word, y: Word)
    requires SamePage(level, x, y)
    ensures Vpn(x, 1) == Vpn(y, 1)
    ensures level == 0 ==> Vpn(x, 0) == Vpn(y, 0)
  {
  }

  lemma ResolveSamePage(mem: Memory, satp: Word, x: Word, y: Word)
    requires Resolve(mem, satp, x).Leaf? && SamePage(Resolve(mem, satp, x).level, x, y)
    ensures Resolve(mem, satp, y) == Resolve(mem, satp, x)
  {
    hide SamePage, RootPteAddress, NextPteAddress, PteValid, PteLeaf, PteGlobal, NonleafValid;
    SamePageAddresses(Resolve(mem, satp, x).level, satp, x, y);
  }

  lemma SamePageAddresses(level: WalkLevel, satp: Word, x: Word, y: Word)
    requires SamePage(level, x, y)
    ensures RootPteAddress(satp, x) == RootPteAddress(satp, y)
    ensures level == 0 ==> forall pte :: NextPteAddress(pte, x) == NextPteAddress(pte, y)
  {
    hide SamePage, Vpn, PtePpn;
    SamePageIndices(level, x, y);
  }

  /** The frame of one address joined to the offset of another. */
  function Rebase(physical: Word, va: Word, level: WalkLevel): Word {
    (physical & !PageMask(level)) | (va & PageMask(level))
  }

  lemma TranslateSamePage(level: WalkLevel, pte: Word, x: Word, y: Word)
    requires SamePage(level, x, y) && TranslateLeaf(x, level, pte).Some?
    ensures TranslateLeaf(y, level, pte) == Some(Rebase(TranslateLeaf(x, level, pte).value, y, level))
  {
    hide SamePage, PtePpn, PageAddress, SuperpageAddress, SuperpageAligned, Rebase;
    if level == 0 {
      PageBits(PtePpn(pte), x, y);
    } else {
      SuperpageBits(PtePpn(pte), x, y);
    }
  }

  lemma PageBits(ppn: Word, x: Word, y: Word)
    ensures PageAddress(ppn, y) == Rebase(PageAddress(ppn, x), y, 0)
  {
  }

  lemma SuperpageBits(ppn: Word, x: Word, y: Word)
    ensures SuperpageAddress(ppn, y) == Rebase(SuperpageAddress(ppn, x), y, 1)
  {
  }

  /* ---------- coherence of the TLB with the page tables ---------- */

  /** What the entry says about (satp, va) is what the page tables say, up to A and D. */
  predicate AgreesAt(e: TlbEntry, mem: Memory, readOnly: set<Cell>, satp: Word, va: Word) {
    var r := Resolve(mem, satp, va);
    r.Leaf? && e.pageMask == PageMask(r.level) && e.globalMapping == r.global &&
    TranslateLeaf(va, r.level, r.pte) == Some(EntryTranslate(e, va)) &&
    SameButAd(e.flags, PteFlags(r.pte)) &&
    (Cell(r.addr) in readOnly ==> AdWithin(e.flags, PteFlags(r.pte)))
  }

  ghost predicate EntryCoherent(e: TlbEntry, mem: Memory, readOnly: set<Cell>, spaces: set<Word>) {
    forall satp, va | satp in spaces && Covers(e, satp, va) :: AgreesAt(e, mem, readOnly, satp, va)
  }

  ghost predicate TlbCoherent(tlb: seq<Option<TlbEntry>>, mem: Memory, readOnly: set<Cell>, spaces: set<Word>) {
    forall k | 0 <= k < |tlb| && tlb[k].Some? :: EntryCoherent(tlb[k].value, mem, readOnly, spaces)
  }

  predicate SharedLeaf(r: Resolution, s: Resolution, readOnly: set<Cell>)
    requires r.Leaf?
  {
    s.Leaf? && s.level == r.level && s.global == r.global && SameButAd(r.pte, s.pte)
    && (Cell(s.addr) in readOnly ==> s.pte == r.pte && Cell(r.addr) in readOnly)
  }

  /** Global mappings are equal in all the address spaces in use. */
  ghost predicate GlobalsShared(mem: Memory, readOnly: set<Cell>, spaces: set<Word>) {
    forall s, t, va | s in spaces && t in spaces && Resolve(mem, s, va).Leaf? && Resolve(mem, s, va).global ::
      SharedLeaf(Resolve(mem, s, va), Resolve(mem, t, va), readOnly)
  }

  lemma GlobalsSharedGrown(mem: Memory, readOnly: set<Cell>, later: Memory, spaces: set<Word>)
    requires Grown(mem, readOnly, later) && GlobalsShared(mem, readOnly, spaces)
    ensures GlobalsShared(later, readOnly, spaces)
  {
    hide Resolve, Grown, SameButAd, AdWithin;
    forall s, t, va | s in spaces && t in spaces && Resolve(later, s, va).Leaf? && Resolve(later, s, va).global
      ensures SharedLeaf(Resolve(later, s, va), Resolve(later, t, va), readOnly)
    {
      ResolveGrown(mem, readOnly, later, s, va);
      ResolveGrown(mem, readOnly, later, t, va);
      var r, r', u, u' := Resolve(mem, s, va), Resolve(later, s, va), Resolve(mem, t, va), Resolve(later, t, va);
      assert SharedLeaf(r, u, readOnly);
      SameButAdEquivalence(r.pte, r'.pte, r'.pte);
      SameButAdEquivalence(r'.pte, r.pte, u.pte);
      SameButAdEquivalence(r'.pte, u.pte, u'.pte);
    }
  }

  lemma AgreesAtGrown(e: TlbEntry, mem: Memory, readOnly: set<Cell>, later: Memory, satp: Word, va: Word)
    requires ResolutionGrown(Resolve(mem, satp, va), readOnly, Resolve(later, satp, va))
    requires AgreesAt(e, mem, readOnly, satp, va)
    ensures AgreesAt(e, later, readOnly, satp, va)
  {
    hide Resolve, SameButAd, AdWithin, TranslateLeaf, PteFlags, EntryTranslate, PageMask, PermissionsAllow;
    var r, s := Resolve(mem, satp, va), Resolve(later, satp, va);
    SameButAdFacts(r.pte, s.pte, Request(0, 0, Machine, va, LoadAccess), va, r.level);
    SameButAdEquivalence(e.flags, PteFlags(r.pte), PteFlags(s.pte));
  }

  lemma EntryCoherentGrown(e: TlbEntry, mem: Memory, readOnly: set<Cell>, later: Memory, spaces: set<Word>)
    requires Grown(mem, readOnly, later) && EntryCoherent(e, mem, readOnly, spaces)
    ensures EntryCoherent(e, later, readOnly, spaces)
  {
    hide Covers, AgreesAt, Grown, ResolutionGrown;
    forall satp, va | satp in spaces && Covers(e, satp, va)
      ensures AgreesAt(e, later, readOnly, satp, va)
    {
      ResolveGrown(mem, readOnly, later, satp, va);
      AgreesAtGrown(e, mem, readOnly, later, satp, va);
    }
  }

  lemma TlbCoherentGrown(tlb: seq<Option<TlbEntry>>, mem: Memory, readOnly: set<Cell>, later: Memory, spaces: set<Word>)
    requires Grown(mem, readOnly, later) && TlbCoherent(tlb, mem, readOnly, spaces)
    ensures TlbCoherent(tlb, later, readOnly, spaces)
  {
    hide EntryCoherent, Grown;
    forall k | 0 <= k < |tlb| && tlb[k].Some?
      ensures EntryCoherent(tlb[k].value, later, readOnly, spaces)
    {
      EntryCoherentGrown(tlb[k].value, mem, readOnly, later, spaces);
    }
  }

  /** A coherent TLB answers, when it answers, what the page tables say. */
  lemma {:induction false} LookupSound(tlb: seq<Option<TlbEntry>>, request: Request, k: nat, sawFault: bool,
                                       mem: Memory, readOnly: set<Cell>, spaces: set<Word>)
    requires k <= |tlb| && TlbCoherent(tlb, mem, readOnly, spaces) && request.satp in spaces
    requires sawFault ==> Outcome(mem, readOnly, request) == Faulted(PageFault(request))
    ensures LookupFrom(tlb, request, k, sawFault).Some? ==>
              LookupFrom(tlb, request, k, sawFault).value == Outcome(mem, readOnly, request)
    decreases |tlb| - k
  {
    hide EntryCoherent, Outcome, PermissionsAllow, NeedsUpdate, EntryTranslate, EntryMatches, PageFault;
    if k < |tlb| {
      if tlb[k].Some? && EntryMatches(tlb[k].value, request) {
        HitSound(tlb[k].value, request, mem, readOnly, spaces);
        LookupSound(tlb, request, k + 1, sawFault || !PermissionsAllow(request, tlb[k].value.flags), mem, readOnly, spaces);
      } else {
        LookupSound(tlb, request, k + 1, sawFault, mem, readOnly, spaces);
      }
    }
  }

  lemma HitSound(e: TlbEntry, request: Request, mem: Memory, readOnly: set<Cell>, spaces: set<Word>)
    requires EntryCoherent(e, mem, readOnly, spaces) && request.satp in spaces && EntryMatches(e, request)
    ensures !PermissionsAllow(request, e.flags) ==> Outcome(mem, readOnly, request) == Faulted(PageFault(request))
    ensures PermissionsAllow(request, e.flags) && !NeedsUpdate(request.access, e.flags) ==>
              Outcome(mem, readOnly, request) == PhysicalAddress(EntryTranslate(e, request.va))
  {
    hide Covers, Resolve, SameButAd, AdWithin, TranslateLeaf, PteFlags, EntryTranslate, PageMask,
         PermissionsAllow, NeedsUpdate, PageFault, AccessFault;
    assert AgreesAt(e, mem, readOnly, request.satp, request.va);
    var r := Resolve(mem, request.satp, request.va);
    SamePermissions(e.flags, PteFlags(r.pte), request);
    if Cell(r.addr) in readOnly && !NeedsUpdate(request.access, e.flags) {
      NoUpdateStays(e.flags, PteFlags(r.pte), request.access);
    }
  }

  /* ---------- fences ---------- */

  /** The fence orders this translation: section 4.2.1, SFENCE.VMA. */
  predicate FenceCovers(f: TranslationFence, satp: Word, va: Word, r: Resolution)
    requires r.Leaf?
  {
    (f.asid.Some? ==> !r.global && SatpAsid(satp) == f.asid.value) &&
    (f.va.Some? ==> SamePage(r.level, f.va.value, va))
  }

  /** Software rewrote only translations the fence covers, or ones that faulted before. */
  ghost predicate RewroteOnlyFenced(mem: Memory, later: Memory, readOnly: set<Cell>, spaces: set<Word>, f: TranslationFence) {
    forall satp, va | satp in spaces && Resolve(mem, satp, va).Leaf? ::
      FenceCovers(f, satp, va, Resolve(mem, satp, va)) ||
      ResolutionGrown(Resolve(mem, satp, va), readOnly, Resolve(later, satp, va))
  }

  lemma UnmatchedIsNotCovered(e: TlbEntry, f: TranslationFence, satp: Word, va: Word, r: Resolution)
    requires r.Leaf? && e.pageMask == PageMask(r.level) && e.globalMapping == r.global
    requires Covers(e, satp, va) && !FenceMatches(f, e)
    ensures !FenceCovers(f, satp, va, r)
  {
    hide PageMask, SatpAsid;
  }

  /** A fence over the rewritten translations restores coherence with the new page
      tables, whichever of its operands are present, and drops no entry it does not
      match. */
  lemma FenceRestoresCoherence(tlb: seq<Option<TlbEntry>>, f: TranslationFence, mem: Memory, later: Memory,
                               readOnly: set<Cell>, spaces: set<Word>)
    requires TlbCoherent(tlb, mem, readOnly, spaces) && RewroteOnlyFenced(mem, later, readOnly, spaces, f)
    ensures TlbCoherent(FlushTlb(tlb, f), later, readOnly, spaces)
    ensures forall k | 0 <= k < |tlb| && tlb[k].Some? && !FenceMatches(f, tlb[k].value) :: FlushTlb(tlb, f)[k] == tlb[k]
  {
    hide FenceMatches, EntryCoherent, RewroteOnlyFenced;
    var flushed := FlushTlb(tlb, f);
    forall k | 0 <= k < |flushed| && flushed[k].Some?
      ensures EntryCoherent(flushed[k].value, later, readOnly, spaces)
    {
      SurvivorCoherent(tlb[k].value, f, mem, later, readOnly, spaces);
    }
  }

  lemma SurvivorCoherent(e: TlbEntry, f: TranslationFence, mem: Memory, later: Memory,
                         readOnly: set<Cell>, spaces: set<Word>)
    requires EntryCoherent(e, mem, readOnly, spaces) && !FenceMatches(f, e)
    requires RewroteOnlyFenced(mem, later, readOnly, spaces, f)
    ensures EntryCoherent(e, later, readOnly, spaces)
  {
    hide FenceMatches, Covers, Resolve, FenceCovers, ResolutionGrown, TranslateLeaf, SameButAd, AdWithin, PteFlags,
         PageMask, EntryTranslate;
    forall satp, va | satp in spaces && Covers(e, satp, va)
      ensures AgreesAt(e, later, readOnly, satp, va)
    {
      assert AgreesAt(e, mem, readOnly, satp, va);
      UnmatchedIsNotCovered(e, f, satp, va, Resolve(mem, satp, va));
      AgreesAtGrown(e, mem, readOnly, later, satp, va);
    }
  }
}
