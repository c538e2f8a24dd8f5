/** The incremental Sv32 page walker and its TLB. `Walker` is the walker as a
    value; the class `PageWalker` updates the same fields in place. */
module Mmu {
  import opened Wrappers
  import opened Isa
  import opened CsrState
  import opened CpuBus

  const PTE_V: Word := 0x01
  const PTE_R: Word := 0x02
  const PTE_W: Word := 0x04
  const PTE_X: Word := 0x08
  const PTE_U: Word := 0x10
  const PTE_G: Word := 0x20
  const PTE_A: Word := 0x40
  const PTE_D: Word := 0x80
  const PAGE_OFFSET_MASK: Word := 0x0000_0fff
  const SUPERPAGE_OFFSET_MASK: Word := 0x003f_ffff
  const SATP_PPN_MASK: Word := 0x003f_ffff
  const TLB_ENTRY_COUNT: nat := 8

  datatype Access = InstructionAccess | LoadAccess | StoreAccess

  type WalkLevel = l: nat | l <= 1

  datatype Request = Request(satp: Word, status: Word, privilege: Privilege, va: Word, access: Access)

  datatype WalkPhase = ReadPte | WriteLeaf(physical: Word, flags: Word, value: Word)

  datatype WalkState = WalkState(
    request: Request, level: WalkLevel, pteAddress: Word, globalMapping: bool, phase: WalkPhase)

  datatype TlbEntry = TlbEntry(
    satp: Word, virtualBase: Word, physicalBase: Word, pageMask: Word, flags: Word, globalMapping: bool)

  type Tlb = s: seq<Option<TlbEntry>> | |s| == TLB_ENTRY_COUNT
    witness [None, None, None, None, None, None, None, None]

  datatype Walker = Walker(active: Option<WalkState>, tlb: Tlb, next: nat)

  const EMPTY_TLB: Tlb := [None, None, None, None, None, None, None, None]
  const RESET_WALKER: Walker := Walker(None, EMPTY_TLB, 0)

  datatype Translation = PhysicalAddress(physical: Word) | Stall | Faulted(trap: Trap)

  datatype StepResult = Waiting | Drained | Ready(physical: Word) | Failed(trap: Trap)

  /* ---------- page-table entries ---------- */

  function Vpn(va: Word, level: WalkLevel): Word {
    if level == 0 then (va >> 12) & 0x3ff else (va >> 22) & 0x3ff
  }

  function RootPteAddress(satp: Word, va: Word): Word {
    ((satp & SATP_PPN_MASK) << 12) + (Vpn(va, 1) << 2)
  }

  function PteFlags(pte: Word): Word { pte & 0xff }
  function PtePpn(pte: Word): Word { (pte >> 10) & 0x003f_ffff }
  function NextPteAddress(pte: Word, va: Word): Word { (PtePpn(pte) << 12) + (Vpn(va, 0) << 2) }
  function PageMask(level: WalkLevel): Word { if level == 1 then SUPERPAGE_OFFSET_MASK else PAGE_OFFSET_MASK }

  predicate PteValid(pte: Word) { pte & PTE_V != 0 && !(pte & PTE_R == 0 && pte & PTE_W != 0) }
  predicate PteLeaf(pte: Word) { pte & (PTE_R | PTE_X) != 0 }
  predicate PteGlobal(flags: Word) { flags & PTE_G != 0 }
  predicate NonleafValid(pte: Word) { pte & (PTE_U | PTE_A | PTE_D) == 0 }

  function AccessBits(access: Access): Word { if access.StoreAccess? then PTE_A | PTE_D else PTE_A }

  predicate NeedsUpdate(access: Access, flags: Word) { flags & AccessBits(access) != AccessBits(access) }

  function Updated(access: Access, bits: Word): Word { bits | AccessBits(access) }

  predicate SuperpageAligned(ppn: Word) { ppn & 0x3ff == 0 }

  function SuperpageAddress(ppn: Word, va: Word): Word {
    ((((ppn >> 10) << 10) | Vpn(va, 0)) << 12) | (va & PAGE_OFFSET_MASK)
  }

  function PageAddress(ppn: Word, va: Word): Word {
    ((((ppn >> 10) << 10) | (ppn & 0x3ff)) << 12) | (va & PAGE_OFFSET_MASK)
  }

  function TranslateLeaf(va: Word, level: WalkLevel, pte: Word): Option<Word> {
    if level == 0 then Some(PageAddress(PtePpn(pte), va))
    else if !SuperpageAligned(PtePpn(pte)) then None
    else Some(SuperpageAddress(PtePpn(pte), va))
  }

  predicate PermissionsAllow(request: Request, flags: Word) {
    var userPage := flags & PTE_U != 0;
    var mxr := request.status & MSTATUS_MXR != 0;
    var sum := request.status & MSTATUS_SUM != 0;
    var plain := match request.access
      case InstructionAccess => flags & PTE_X != 0
      case LoadAccess => flags & PTE_R != 0 || (mxr && flags & PTE_X != 0)
      case StoreAccess => flags & PTE_W != 0;
    match request.privilege
    case Machine => true
    case Supervisor => if userPage then !request.access.InstructionAccess? && sum && plain else plain
    case User => userPage && plain
  }

  function PageFault(request: Request): Trap {
    ExceptionTrap(match request.access
      case InstructionAccess => InstructionPageFault(request.va)
      case LoadAccess => LoadPageFault(request.va)
      case StoreAccess => StorePageFault(request.va))
  }

  function AccessFault(request: Request): Trap {
    ExceptionTrap(match request.access
      case InstructionAccess => InstructionAccessFault(request.va)
      case LoadAccess => LoadAccessFault(request.va)
      case StoreAccess => StoreAccessFault(request.va))
  }

  /* ---------- requests ---------- */

  predicate TranslationEnabled(satp: Word, p: Privilege) { !p.Machine? && satp >> 31 == 1 }

  function EffectivePrivilege(c: Csrs, p: Privilege, access: Access): Privilege {
    if access.InstructionAccess? || !p.Machine? || c.machine.mstatus & MSTATUS_MPRV == 0 then p
    else PreviousPrivilege(c.machine.mstatus)
  }

  function MakeRequest(c: Csrs, p: Privilege, va: Word, access: Access): Request {
    Request(c.supervisor.satp, c.machine.mstatus & (MSTATUS_SUM | MSTATUS_MXR),
            EffectivePrivilege(c, p, access), va, access)
  }

  /* ---------- the TLB ---------- */

  /** The entry speaks about this virtual address in the space of this satp value. */
  predicate Covers(e: TlbEntry, satp: Word, va: Word) {
    (e.globalMapping || e.satp == satp) && va & !e.pageMask == e.virtualBase
  }

  predicate EntryMatches(e: TlbEntry, request: Request) { Covers(e, request.satp, request.va) }

  function EntryTranslate(e: TlbEntry, va: Word): Word { e.physicalBase | (va & e.pageMask) }

  /** `lookup_tlb` over the entries from `k` on, with its running permission-fault flag. */
  function LookupFrom(tlb: seq<Option<TlbEntry>>, request: Request, k: nat, sawFault: bool): Option<Translation>
    requires k <= |tlb|
    decreases |tlb| - k
  {
    if k == |tlb| then (if sawFault then Some(Faulted(PageFault(request))) else None)
    else
      match tlb[k]
      case None => LookupFrom(tlb, request, k + 1, sawFault)
      case Some(e) =>
        if !EntryMatches(e, request) then LookupFrom(tlb, request, k + 1, sawFault)
        else if !PermissionsAllow(request, e.flags) then LookupFrom(tlb, request, k + 1, true)
        else if NeedsUpdate(request.access, e.flags) then LookupFrom(tlb, request, k + 1, sawFault)
        else Some(PhysicalAddress(EntryTranslate(e, request.va)))
  }

  function NewEntry(state: WalkState, flags: Word, physical: Word): TlbEntry {
    var mask := PageMask(state.level);
    TlbEntry(state.request.satp, state.request.va & !mask, physical & !mask, mask, flags,
             state.globalMapping || PteGlobal(flags))
  }

  function InsertTlb(w: Walker, state: WalkState, flags: Word, physical: Word): Walker {
    if w.next < TLB_ENTRY_COUNT then
      w.(tlb := w.tlb[w.next := Some(NewEntry(state, flags, physical))], next := (w.next + 1) % TLB_ENTRY_COUNT)
    else w
  }

  datatype TranslationFence = TranslationFence(va: Option<Word>, asid: Option<Word>)

  function SatpAsid(satp: Word): Word { (satp >> 22) & 0x1ff }

  predicate FenceMatches(f: TranslationFence, e: TlbEntry) {
    (f.asid.Some? ==> !e.globalMapping && SatpAsid(e.satp) == f.asid.value) &&
    (f.va.Some? ==> f.va.value & !e.pageMask == e.virtualBase)
  }

  function FlushTlb(tlb: seq<Option<TlbEntry>>, f: TranslationFence): (r: seq<Option<TlbEntry>>)
    ensures |r| == |tlb|
    ensures forall k | 0 <= k < |tlb| ::
      r[k] == if tlb[k].Some? && FenceMatches(f, tlb[k].value) then None else tlb[k]
  {
    if tlb == [] then []
    else [if tlb[0].Some? && FenceMatches(f, tlb[0].value) then None else tlb[0]] + FlushTlb(tlb[1..], f)
  }

  function FlushFence(w: Walker, f: TranslationFence): Walker { w.(tlb := FlushTlb(w.tlb, f)) }

  function FenceFromOperands(rs1: Option<Reg>, rs1Value: Word, rs2: Option<Reg>, rs2Value: Word): TranslationFence {
    TranslationFence(if rs1.Some? && rs1.value != 0 then Some(rs1Value) else None,
                     if rs2.Some? && rs2.value != 0 then Some(rs2Value & 0x1ff) else None)
  }

  /* ---------- one step of a walk ---------- */

  datatype Stepped = Stepped(walker: Walker, bus: Bus, result: StepResult)

  function Ended(w: Walker, bus: Bus, drain: bool, result: StepResult): Stepped {
    Stepped(w.(active := None), bus, if drain then Drained else result)
  }

  function FinishLeafUpdate(w: Walker, bus: Bus, state: WalkState, drain: bool): Stepped
    requires state.phase.WriteLeaf?
  {
    var r := Store32(bus, state.pteAddress, state.phase.value);
    match r.answer
    case Ok(_) =>
      Ended(if drain then w else InsertTlb(w, state, state.phase.flags, state.phase.physical),
            r.bus, drain, Ready(state.phase.physical))
    case Err(fault) =>
      if fault.Busy? then Stepped(w.(active := Some(state)), r.bus, Waiting)
      else Ended(w, r.bus, drain, Failed(AccessFault(state.request)))
  }

  function StepLeaf(w: Walker, bus: Bus, state: WalkState, pte: Word, drain: bool): Stepped {
    var flags := PteFlags(pte);
    var leaf := TranslateLeaf(state.request.va, state.level, pte);
    if leaf.None? || !PermissionsAllow(state.request, flags) then
      Ended(w, bus, drain, Failed(PageFault(state.request)))
    else if NeedsUpdate(state.request.access, flags) then
      FinishLeafUpdate(w, bus,
        state.(phase := WriteLeaf(leaf.value, Updated(state.request.access, flags),
                                  Updated(state.request.access, pte))), drain)
    else
      Ended(if drain then w else InsertTlb(w, state, flags, leaf.value), bus, drain, Ready(leaf.value))
  }

  /** `step`: read one PTE, or retry the pending leaf update. */
  function Step(w: Walker, bus: Bus, drain: bool): (s: Stepped)
    requires w.active.Some?
  {
    var state := w.active.value;
    if state.phase.WriteLeaf? then FinishLeafUpdate(w, bus, state, drain)
    else
      var r := Load32(bus, state.pteAddress);
      match r.answer
      case Err(fault) =>
        if fault.Busy? then Stepped(w, r.bus, Waiting)
        else Ended(w, r.bus, drain, Failed(AccessFault(state.request)))
      case Ok(pte) =>
        if !PteValid(pte) then Ended(w, r.bus, drain, Failed(PageFault(state.request)))
        else if PteLeaf(pte) then StepLeaf(w, r.bus, state, pte, drain)
        else if !NonleafValid(pte) || state.level == 0 then
          Ended(w, r.bus, drain, Failed(PageFault(state.request)))
        else
          Stepped(w.(active := Some(WalkState(state.request, 0, NextPteAddress(pte, state.request.va),
                                              state.globalMapping || PteGlobal(pte), ReadPte))),
                  r.bus, Drained)
  }

  /** A draining step never yields a translation, and a step that moves down a level
      keeps the request: the cases `translate` calls unreachable, and its progress. */
  lemma StepShape(w: Walker, bus: Bus, drain: bool)
    requires w.active.Some?
    ensures var s := Step(w, bus, drain);
            (drain ==> s.result.Waiting? || s.result.Drained?) &&
            (s.result.Ready? || s.result.Failed? ==> s.walker.active.None?) &&
            (s.result.Waiting? ==> s.walker.active.Some? && s.walker.active.value.request == w.active.value.request
                                   && s.walker.active.value.level == w.active.value.level) &&
            (s.result.Drained? ==>
               (drain && s.walker.active.None?) ||
               (w.active.value.level == 1 && s.walker.active.Some? && s.walker.active.value.level == 0
                && s.walker.active.value.request == w.active.value.request))
  {
    hide Load32, Store32, PteValid, PteLeaf, NonleafValid, NextPteAddress, PteGlobal, PteFlags, TranslateLeaf,
         PermissionsAllow, NeedsUpdate, Updated, InsertTlb;
  }

  /* ---------- translate ---------- */

  datatype Translated = Translated(walker: Walker, bus: Bus, result: Translation)

  function FreshWalk(request: Request): WalkState {
    WalkState(request, 1, RootPteAddress(request.satp, request.va), false, ReadPte)
  }

  /** How many more turns the loop of `translate` can take. */
  function LoopRank(w: Walker, request: Request): nat {
    match w.active
    case None => 3
    case Some(active) => if active.request != request then 4 + active.level else 1 + active.level
  }

  /** An active walk was started for a request that translates. */
  predicate WalkEnabled(w: Walker) {
    w.active.Some? ==> TranslationEnabled(w.active.value.request.satp, w.active.value.request.privilege)
  }

  function Translate(w: Walker, bus: Bus, request: Request): Translated
    decreases LoopRank(w, request)
  {
    if w.active.Some? && w.active.value.request != request then
      StepShape(w, bus, true);
      var s := Step(w, bus, true);
      if s.result.Waiting? then Translated(s.walker, s.bus, Stall) else Translate(s.walker, s.bus, request)
    else if !TranslationEnabled(request.satp, request.privilege) then
      Translated(w, bus, PhysicalAddress(request.va))
    else
      var hit := if w.active.None? then LookupFrom(w.tlb, request, 0, false) else None;
      if hit.Some? then Translated(w, bus, hit.value)
      else
        var started := if w.active.None? then w.(active := Some(FreshWalk(request))) else w;
        StepShape(started, bus, false);
        var s := Step(started, bus, false);
        match s.result
        case Ready(physical) => Translated(s.walker, s.bus, PhysicalAddress(physical))
        case Failed(trap) => Translated(s.walker, s.bus, Faulted(trap))
        case Waiting => Translated(s.walker, s.bus, Stall)
        case Drained => Translate(s.walker, s.bus, request)
  }

  lemma LookupNeverStalls(tlb: seq<Option<TlbEntry>>, request: Request, k: nat, sawFault: bool)
    requires k <= |tlb|
    ensures LookupFrom(tlb, request, k, sawFault) != Some(Stall)
    decreases |tlb| - k
  {
    hide EntryMatches, PermissionsAllow, NeedsUpdate, EntryTranslate, PageFault;
  }

  /** An answer other than Stall leaves no walk behind; a Stall leaves the walk of a
      request that translates. */
  lemma {:induction false} TranslateEndsWalk(w: Walker, bus: Bus, request: Request)
    requires WalkEnabled(w)
    ensures var t := Translate(w, bus, request);
            WalkEnabled(t.walker) && (t.result.Stall? <==> t.walker.active.Some?)
    decreases LoopRank(w, request)
  {
    hide Step, LookupFrom;
    if w.active.Some? && w.active.value.request != request {
      StepShape(w, bus, true);
      var s := Step(w, bus, true);
      if !s.result.Waiting? { TranslateEndsWalk(s.walker, s.bus, request); }
    } else if TranslationEnabled(request.satp, request.privilege) {
      LookupNeverStalls(w.tlb, request, 0, false);
      var started := if w.active.None? then w.(active := Some(FreshWalk(request))) else w;
      StepShape(started, bus, false);
      var s := Step(started, bus, false);
      if s.result.Drained? { TranslateEndsWalk(s.walker, s.bus, request); }
    }
  }

  /* ---------- the walker updated in place ---------- */

  class PageWalker {
    var active: Option<WalkState>
    var tlb: Tlb
    var next: nat

    function State(): Walker
      reads this
    {
      Walker(active, tlb, next)
    }

    constructor ()
      ensures State() == RESET_WALKER
    {
      active, tlb, next := None, EMPTY_TLB, 0;
    }

    method Flush(f: TranslationFence)
      modifies this
      ensures State() == FlushFence(old(State()), f)
    {
      hide FenceMatches;
      var k := 0;
      while k < |tlb|
        invariant 0 <= k <= |tlb| && active == old(active) && next == old(next)
        invariant forall i | 0 <= i < k ::
          tlb[i] == if old(tlb)[i].Some? && FenceMatches(f, old(tlb)[i].value) then None else old(tlb)[i]
        invariant tlb[k..] == old(tlb)[k..]
      {
        assert tlb[k] == old(tlb)[k];
        if tlb[k].Some? && FenceMatches(f, tlb[k].value) {
          tlb := tlb[k := None];
        }
        k := k + 1;
      }
      assert tlb == FlushTlb(old(tlb), f);
    }

    method Insert(state: WalkState, flags: Word, physical: Word)
      modifies this
      ensures State() == InsertTlb(old(State()), state, flags, physical)
    {
      if next < TLB_ENTRY_COUNT {
        tlb := tlb[next := Some(NewEntry(state, flags, physical))];
        next := (next + 1) % TLB_ENTRY_COUNT;
      }
    }

    method Lookup(request: Request) returns (r: Option<Translation>)
      ensures r == LookupFrom(tlb, request, 0, false)
    {
      hide EntryMatches, PermissionsAllow, NeedsUpdate, EntryTranslate, PageFault;
      var sawFault := false;
      var k := 0;
      while k < |tlb|
        invariant 0 <= k <= |tlb|
        invariant LookupFrom(tlb, request, 0, false) == LookupFrom(tlb, request, k, sawFault)
      {
        if tlb[k].Some? && EntryMatches(tlb[k].value, request) {
          if !PermissionsAllow(request, tlb[k].value.flags) {
            sawFault := true;
          } else if !NeedsUpdate(request.access, tlb[k].value.flags) {
            return Some(PhysicalAddress(EntryTranslate(tlb[k].value, request.va)));
          }
        }
        k := k + 1;
      }
      r := if sawFault then Some(Faulted(PageFault(request))) else None;
    }

    method FinishLeaf(bus: BusPort, state: WalkState, drain: bool) returns (r: StepResult)
      requires state.phase.WriteLeaf?
      modifies this, bus
      ensures Stepped(State(), bus.state, r) == FinishLeafUpdate(old(State()), old(bus.state), state, drain)
    {
      hide InsertTlb, Store32;
      var answer := bus.Store(state.pteAddress, state.phase.value);
      if answer.Ok? {
        if !drain { Insert(state, state.phase.flags, state.phase.physical); }
        active := None;
        r := if drain then Drained else Ready(state.phase.physical);
      } else if answer.fault.Busy? {
        active := Some(state);
        r := Waiting;
      } else {
        active := None;
        r := if drain then Drained else Failed(AccessFault(state.request));
      }
    }

    method Advance(bus: BusPort, drain: bool) returns (r: StepResult)
      requires active.Some?
      modifies this, bus
      ensures Stepped(State(), bus.state, r) == Step(old(State()), old(bus.state), drain)
    {
      hide InsertTlb, Load32, FinishLeafUpdate, PteValid, PteLeaf, NonleafValid, TranslateLeaf, PermissionsAllow,
           NeedsUpdate, Updated, NextPteAddress, PteGlobal, PteFlags;
      var state := active.value;
      if state.phase.WriteLeaf? {
        r := FinishLeaf(bus, state, drain);
        return;
      }
      var answer := bus.Load(state.pteAddress);
      if answer.Err? {
        if answer.fault.Busy? { return Waiting; }
        active := None;
        return if drain then Drained else Failed(AccessFault(state.request));
      }
      var pte := answer.value;
      if PteValid(pte) && PteLeaf(pte) {
        var flags := PteFlags(pte);
        var leaf := TranslateLeaf(state.request.va, state.level, pte);
        if leaf.Some? && PermissionsAllow(state.request, flags) {
          if NeedsUpdate(state.request.access, flags) {
            r := FinishLeaf(bus,
              state.(phase := WriteLeaf(leaf.value, Updated(state.request.access, flags),
                                        Updated(state.request.access, pte))), drain);
            return;
          }
          if !drain { Insert(state, flags, leaf.value); }
          active := None;
          return if drain then Drained else Ready(leaf.value);
        }
      } else if PteValid(pte) && NonleafValid(pte) && state.level != 0 {
        active := Some(WalkState(state.request, 0, NextPteAddress(pte, state.request.va),
                                 state.globalMapping || PteGlobal(pte), ReadPte));
        return Drained;
      }
      active := None;
      r := if drain then Drained else Failed(PageFault(state.request));
    }

    method TranslateRequest(bus: BusPort, request: Request) returns (r: Translation)
      modifies this, bus
      ensures Translated(State(), bus.state, r) == Translate(old(State()), old(bus.state), request)
    {
      hide Step, LookupFrom, TranslationEnabled, RootPteAddress;
      while true
        invariant Translate(State(), bus.state, request) == Translate(old(State()), old(bus.state), request)
        decreases LoopRank(State(), request)
      {
        if active.Some? && active.value.request != request {
          StepShape(State(), bus.state, true);
          var s := Advance(bus, true);
          if s.Waiting? { return Stall; }
          continue;
        }
        if !TranslationEnabled(request.satp, request.privilege) {
          return PhysicalAddress(request.va);
        }
        if active.None? {
          var hit := Lookup(request);
          if hit.Some? { return hit.value; }
          active := Some(FreshWalk(request));
        }
        StepShape(State(), bus.state, false);
        var s := Advance(bus, false);
        match s
        case Ready(physical) => return PhysicalAddress(physical);
        case Failed(trap) => return Faulted(trap);
        case Waiting => return Stall;
        case Drained =>
      }
    }
  }
}
