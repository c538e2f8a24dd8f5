/** Traps as a stack discipline over mstatus, mepc and sepc: sections 3.1.6.1,
    3.1.8 and 3.1.9 of the RISC-V Privileged Architecture, version 20211203. */
module TrapNesting {
  import opened Wrappers
  import opened Isa
  import opened CsrState

  datatype Hart = Hart(csrs: Csrs, privilege: Privilege, pc: Word)

  /** What a handler does between its entry and its return: switch its own
      interrupt-enable bit, or be trapped at some pc by a nested trap whose handler
      runs a body of its own. */
  datatype Action = SetEnable(on: bool) | Take(trap: Trap, at: Word, body: seq<Action>)

  predicate Mie(h: Hart) { h.csrs.machine.mstatus & MSTATUS_MIE != 0 }
  predicate Sie(h: Hart) { h.csrs.machine.mstatus & MSTATUS_SIE != 0 }

  function EnableBit(p: Privilege): Word {
    match p
    case Machine => MSTATUS_MIE
    case Supervisor => MSTATUS_SIE
    case User => 0
  }

  function Entered(h: Hart, trap: Trap): Hart {
    var e := EnterTrap(h.csrs, trap, h.pc, h.privilege);
    Hart(e.csrs, e.privilege, e.pc)
  }

  /** MRET from machine mode, SRET from supervisor mode. */
  function Returned(h: Hart): Hart {
    var e := if h.privilege.Machine? then ReturnFromMachineTrap(h.csrs) else ReturnFromSupervisorTrap(h.csrs);
    Hart(e.csrs, e.privilege, e.pc)
  }

  /** What a handler puts back after a nested trap of its own level: the epc and
      status it saved before allowing that trap. */
  function Restored(h: Hart, saved: Hart): Hart {
    var m, s := h.csrs.machine, h.csrs.supervisor;
    h.(csrs := if saved.privilege.Machine?
        then h.csrs.(machine := m.(mepc := saved.csrs.machine.mepc, mstatus := saved.csrs.machine.mstatus))
        else h.csrs.(supervisor := s.(sepc := saved.csrs.supervisor.sepc),
                     machine := m.(mstatus := SstatusMerged(m.mstatus, saved.csrs.machine.mstatus))))
  }

  /** The effect of writing a saved sstatus back: only the sstatus bits change. */
  function SstatusMerged(mstatus: Word, saved: Word): Word {
    (mstatus & !SSTATUS_MASK) | (saved & SSTATUS_MASK)
  }

  function TakeNested(h: Hart, trap: Trap, body: seq<Action>): Hart
    decreases body, 1
  {
    var entered := Entered(h, trap);
    var back := Returned(Run(entered, body));
    if entered.privilege == h.privilege then Restored(back, h) else back
  }

  function Act(h: Hart, action: Action): Hart
    decreases action, 2
  {
    match action
    case SetEnable(on) =>
      h.(csrs := h.csrs.(machine := h.csrs.machine.(mstatus :=
        WithFlag(h.csrs.machine.mstatus, EnableBit(h.privilege), on))))
    case Take(trap, at, inner) => TakeNested(h.(pc := at), trap, inner)
  }

  function Run(h: Hart, body: seq<Action>): Hart
    decreases body, 0
  {
    if body == [] then h else Run(Act(h, body[0]), body[1..])
  }

  /** The bits a handler at privilege `p` relies on for its own return, together with
      the enable bits of the levels it does not run at. */
  function Owned(p: Privilege): Word {
    match p
    case Machine => MSTATUS_MPIE | MSTATUS_MPP_MASK | MSTATUS_SIE | MSTATUS_SPIE | MSTATUS_SPP
    case Supervisor => MSTATUS_SPIE | MSTATUS_SPP | MSTATUS_MIE
    case User => MSTATUS_MIE | MSTATUS_SIE
  }

  predicate Agree(p: Privilege, x: Word, y: Word) { x & Owned(p) == y & Owned(p) }

  lemma AgreeTransitive(p: Privilege, x: Word, y: Word, z: Word)
    requires Agree(p, x, y) && Agree(p, y, z)
    ensures Agree(p, x, z)
  {
  }

  lemma AgreeReflexive(x: Word)
    ensures Agree(User, x, x) && Agree(Supervisor, x, x) && Agree(Machine, x, x)
  {
  }

  predicate Intact(h: Hart, k: Hart) {
    k.privilege == h.privilege &&
    Agree(h.privilege, k.csrs.machine.mstatus, h.csrs.machine.mstatus) &&
    (h.privilege.Machine? ==> k.csrs.machine.mepc == h.csrs.machine.mepc) &&
    (!h.privilege.User? ==> k.csrs.supervisor.sepc == h.csrs.supervisor.sepc)
  }

  lemma MachineStatusRoundTrip(before: Word, after: Word, p: Privilege)
    requires Agree(Machine, after, MachineEntryStatus(before, p))
    ensures PreviousPrivilege(after) == p
    ensures AgreeKept(MachineReturnStatus(after), before)
  {
  }

  /** Equal on the bits a machine trap neither consumes nor loses between entry and return. */
  predicate AgreeKept(x: Word, y: Word) {
    x & (MSTATUS_MIE | MSTATUS_SIE | MSTATUS_SPIE | MSTATUS_SPP)
      == y & (MSTATUS_MIE | MSTATUS_SIE | MSTATUS_SPIE | MSTATUS_SPP)
  }

  lemma SupervisorStatusRoundTrip(before: Word, after: Word, p: Privilege)
    requires !p.Machine?
    requires Agree(Supervisor, after, SupervisorEntryStatus(before, p))
    ensures PreviousSupervisorPrivilege(after) == p
    ensures Agree(User, SupervisorReturnStatus(after), before)
  {
  }

  lemma SupervisorRestore(status: Word, saved: Word)
    requires Agree(User, status, saved)
    ensures var w := SstatusMerged(status, saved);
            Agree(Supervisor, w, saved) &&
            Agree(User, w, saved)
  {
  }

  lemma SameEnables(h: Hart, k: Hart)
    requires Agree(User, k.csrs.machine.mstatus, h.csrs.machine.mstatus)
    ensures Mie(k) == Mie(h) && Sie(k) == Sie(h)
  {
  }

  lemma WiderMask(x: Word, y: Word)
    requires AgreeKept(x, y)
    ensures Agree(User, x, y)
    ensures Agree(Supervisor, x, y)
  {
  }

  /** No trap entry lowers the privilege. */
  lemma EntryNeverLowersPrivilege(h: Hart, trap: Trap)
    ensures Level(Entered(h, trap).privilege) >= Level(h.privilege)
    ensures Entered(h, trap).privilege.Machine? || (Entered(h, trap).privilege.Supervisor? && !h.privilege.Machine?)
  {
  }

  lemma MachineReturnFacts(h: Hart, trap: Trap, b: Hart)
    requires Entered(h, trap).privilege.Machine? && Intact(Entered(h, trap), b)
    ensures var r := Returned(b);
            r.privilege == h.privilege && r.pc == h.pc && r.csrs.supervisor.sepc == h.csrs.supervisor.sepc &&
            AgreeKept(r.csrs.machine.mstatus, h.csrs.machine.mstatus)
  {
    hide CauseBits, TrapValue, Vector, DelegatesTrap, Agree, AgreeKept, PreviousPrivilege, PreviousSupervisorPrivilege, MachineEntryStatus, SupervisorEntryStatus, MachineReturnStatus, SupervisorReturnStatus;
    MachineStatusRoundTrip(h.csrs.machine.mstatus, b.csrs.machine.mstatus, h.privilege);
  }

  lemma SupervisorReturnFacts(h: Hart, trap: Trap, b: Hart)
    requires Entered(h, trap).privilege.Supervisor? && Intact(Entered(h, trap), b) && !h.privilege.Machine?
    ensures var r := Returned(b);
            r.privilege == h.privilege && r.pc == h.pc &&
            Agree(User, r.csrs.machine.mstatus, h.csrs.machine.mstatus)
  {
    hide CauseBits, TrapValue, Vector, DelegatesTrap, Agree, PreviousPrivilege, PreviousSupervisorPrivilege, WithFlag, MachineEntryStatus, SupervisorEntryStatus, MachineReturnStatus, SupervisorReturnStatus;
    SupervisorStatusRoundTrip(h.csrs.machine.mstatus, b.csrs.machine.mstatus, h.privilege);
  }

  predicate Recovered(h: Hart, k: Hart) {
    k.pc == h.pc && Intact(h, k) && Mie(k) == Mie(h) && Sie(k) == Sie(h)
  }

  lemma AfterMachineReturn(h: Hart, r: Hart)
    requires r.privilege == h.privilege && r.pc == h.pc && r.csrs.supervisor.sepc == h.csrs.supervisor.sepc
    requires AgreeKept(r.csrs.machine.mstatus, h.csrs.machine.mstatus)
    ensures Recovered(h, if h.privilege.Machine? then Restored(r, h) else r)
  {
    hide Mie, Sie, Agree, AgreeKept, SstatusMerged;
    AgreeReflexive(h.csrs.machine.mstatus);
    WiderMask(r.csrs.machine.mstatus, h.csrs.machine.mstatus);
    SameEnables(h, if h.privilege.Machine? then Restored(r, h) else r);
  }

  lemma AfterSupervisorReturn(h: Hart, r: Hart)
    requires r.privilege == h.privilege && r.pc == h.pc && !h.privilege.Machine?
    requires Agree(User, r.csrs.machine.mstatus, h.csrs.machine.mstatus)
    ensures Recovered(h, if h.privilege.Supervisor? then Restored(r, h) else r)
  {
    hide Mie, Sie, Agree, SstatusMerged;
    SupervisorRestore(r.csrs.machine.mstatus, h.csrs.machine.mstatus);
    SameEnables(h, if h.privilege.Supervisor? then Restored(r, h) else r);
  }

  /** A well-bracketed trap restores PC, privilege and both interrupt-enable bits of
      the code it interrupted, and leaves that code's own return state intact, however
      deeply its handler was itself trapped. */
  lemma {:induction false} NestedTrapRestores(h: Hart, trap: Trap, body: seq<Action>)
    ensures Recovered(h, TakeNested(h, trap, body))
    decreases body, 1
  {
    hide Returned, Entered, Restored, Recovered, Agree, AgreeKept;
    var e := Entered(h, trap);
    BodyKeepsHandlerState(e, body);
    EntryNeverLowersPrivilege(h, trap);
    var r := Returned(Run(e, body));
    if e.privilege.Machine? {
      MachineReturnFacts(h, trap, Run(e, body));
      AfterMachineReturn(h, r);
    } else {
      SupervisorReturnFacts(h, trap, Run(e, body));
      AfterSupervisorReturn(h, r);
    }
  }

  lemma EnableKeepsOwned(status: Word, p: Privilege, on: bool)
    ensures Agree(p, WithFlag(status, EnableBit(p), on), status)
  {
  }

  lemma {:induction false} ActionKeepsHandlerState(h: Hart, action: Action)
    ensures Intact(h, Act(h, action))
    decreases action, 2
  {
    hide Agree, WithFlag, EnableBit, TakeNested;
    match action
    case SetEnable(on) =>
      EnableKeepsOwned(h.csrs.machine.mstatus, h.privilege, on);
    case Take(trap, at, inner) =>
      NestedTrapRestores(h.(pc := at), trap, inner);
  }

  lemma IntactTransitive(h: Hart, k: Hart, l: Hart)
    requires Intact(h, k) && Intact(k, l)
    ensures Intact(h, l)
  {
    hide Agree;
    AgreeTransitive(h.privilege, l.csrs.machine.mstatus, k.csrs.machine.mstatus, h.csrs.machine.mstatus);
  }

  /** Whatever a handler body does, the handler can still return. */
  lemma {:induction false} BodyKeepsHandlerState(h: Hart, body: seq<Action>)
    ensures Intact(h, Run(h, body))
    decreases body, 0
  {
    if body != [] {
      hide Intact, Act;
      ActionKeepsHandlerState(h, body[0]);
      BodyKeepsHandlerState(Act(h, body[0]), body[1..]);
      IntactTransitive(h, Act(h, body[0]), Run(h, body));
    }
  }

  /* ---------- back-to-back interrupts ---------- */

  predicate MachineQuiet(h: Hart) { h.privilege.Machine? && !Mie(h) }
  predicate SupervisorQuiet(h: Hart) { h.privilege.Supervisor? && !Sie(h) }

  /** The same hart after the bus lines changed to `lines`. */
  function Synced(h: Hart, lines: set<Interrupt>): Hart { h.(csrs := SyncInterrupts(h.csrs, lines)) }

  lemma EntryStatusQuiet(status: Word, p: Privilege)
    ensures MachineEntryStatus(status, p) & MSTATUS_MIE == 0
    ensures !p.Machine? ==> SupervisorEntryStatus(status, p) & MSTATUS_SIE == 0
  {
  }

  lemma MachineQuietTakesNothing(h: Hart, lines: set<Interrupt>)
    requires MachineQuiet(h)
    ensures PendingInterrupt(Synced(h, lines).csrs, h.privilege) == None
  {
  }

  lemma SupervisorQuietTakesMachineOnly(h: Hart, lines: set<Interrupt>)
    requires SupervisorQuiet(h)
    ensures var i := PendingInterrupt(Synced(h, lines).csrs, h.privilege);
            i.Some? ==> MachineQuiet(Entered(Synced(h, lines), InterruptTrap(i.value)))
  {
    var i := PendingInterrupt(Synced(h, lines).csrs, h.privilege);
    EntryStatusQuiet(h.csrs.machine.mstatus, h.privilege);
  }

  /** From any state, whatever the interrupt lines do in between, a third interrupt is
      never taken before an instruction runs. */
  lemma AtMostTwoBackToBack(h: Hart, l0: set<Interrupt>, l1: set<Interrupt>, l2: set<Interrupt>)
    ensures var i0 := PendingInterrupt(Synced(h, l0).csrs, h.privilege);
            i0.Some? ==>
              var h1 := Entered(Synced(h, l0), InterruptTrap(i0.value));
              var i1 := PendingInterrupt(Synced(h1, l1).csrs, h1.privilege);
              i1.Some? ==>
                var h2 := Entered(Synced(h1, l1), InterruptTrap(i1.value));
                PendingInterrupt(Synced(h2, l2).csrs, h2.privilege) == None
  {
    var i0 := PendingInterrupt(Synced(h, l0).csrs, h.privilege);
    if i0.Some? {
      var h1 := Entered(Synced(h, l0), InterruptTrap(i0.value));
      EntryStatusQuiet(h.csrs.machine.mstatus, h.privilege);
      if h1.privilege.Machine? {
        MachineQuietTakesNothing(h1, l1);
      } else {
        SupervisorQuietTakesMachineOnly(h1, l1);
        var i1 := PendingInterrupt(Synced(h1, l1).csrs, h1.privilege);
        if i1.Some? {
          MachineQuietTakesNothing(Entered(Synced(h1, l1), InterruptTrap(i1.value)), l2);
        }
      }
    }
  }
}
