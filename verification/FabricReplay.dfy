/** The recorded beats are what happened to memory: doing them again, in order, with the
    stores of single accesses, on the memory of the start gives the memory of the end. */
module FabricReplay {
  import opened Wrappers
  import opened BusFabric
  import opened FabricProof

  /** One thing done to a device: a beat, a write beat the device refused somewhere in its
      word, or the store of a single access. */
  datatype Deed =
    | ReadBeat(beat: Beat)
    | WriteBeat(beat: Beat)
    | RefusedBeat(region: nat, addr: nat, word: Word4)
    | SingleStore(region: nat, addr: nat, word: Word4, width: nat)

  /** What a deed does to memory. */
  function Redo(f: Fabric, bytes: Bytes, d: Deed): Bytes
    requires DeedOk(f, d)
  {
    var g := f.(bytes := bytes);
    match d
    case ReadBeat(_) => bytes
    case WriteBeat(beat) => StoreWord(g, beat.region, beat.addr, beat.word).bytes
    case RefusedBeat(region, addr, word) => StoreWord(g, region, addr, word).bytes
    case SingleStore(region, addr, word, width) => StoreFrom(g, region, addr, word, 0, width).bytes
  }

  predicate DeedOk(f: Fabric, d: Deed) {
    match d
    case ReadBeat(beat) => beat.region < |f.regions|
    case WriteBeat(beat) => beat.region < |f.regions|
    case RefusedBeat(region, _, _) => region < |f.regions|
    case SingleStore(region, _, _, width) => region < |f.regions| && width <= 4
  }

  /** A read beat has the word its device holds; a write beat stores the whole word. */
  predicate Truthful(f: Fabric, bytes: Bytes, d: Deed)
    requires DeedOk(f, d)
  {
    var g := f.(bytes := bytes);
    match d
    case ReadBeat(beat) => LoadWord(g, beat.region, beat.addr) == Done(beat.word)
    case WriteBeat(beat) => StoreWord(g, beat.region, beat.addr, beat.word).fault.None?
    case _ => true
  }

  /** Doing these deeds in order on `bytes`, each true as it is done, ends in `after`. */
  predicate Replays(f: Fabric, bytes: Bytes, deeds: seq<Deed>, after: Bytes)
    decreases |deeds|
  {
    if deeds == [] then bytes == after
    else DeedOk(f, deeds[0]) && Truthful(f, bytes, deeds[0]) && Replays(f, Redo(f, bytes, deeds[0]), deeds[1..], after)
  }

  /** The beats among these deeds. */
  function BeatsAmong(deeds: seq<Deed>): seq<Beat> {
    if deeds == [] then []
    else (if deeds[0].ReadBeat? || deeds[0].WriteBeat? then [deeds[0].beat] else []) + BeatsAmong(deeds[1..])
  }

  /* ---------- the deeds of a run ---------- */

  function BurstDeeds(f: Fabric, b: ActiveBurst): seq<Deed>
    requires BurstOk(f, b)
  {
    var beats := BeatsOf(f, b);
    if beats != [] then [if b.request.ReadWords? then ReadBeat(beats[0]) else WriteBeat(beats[0])]
    else if Executes(f, b) && b.request.WriteWords? && b.beat < |b.request.words| then
      [RefusedBeat(b.region, b.request.BeatAddr(b.beat), b.request.words[b.beat])]
    else []
  }

  function BurstDeedsFrom(f: Fabric, i: nat): seq<Deed>
    requires FabricOk(f) && i <= |f.bursts|
    decreases |f.bursts| - i
  {
    if i == |f.bursts| then [] else BurstDeeds(f, f.bursts[i]) + BurstDeedsFrom(AdvanceBurstAt(f, i), i + 1)
  }

  predicate ExecutesAccess(f: Fabric, a: ActiveAccess) {
    match a.phase
    case Waiting => f.latency(a.region, a.request.addr, a.request.kind) == 0
    case Underway(cycles) => cycles <= 1
    case _ => false
  }

  function AccessDeeds(f: Fabric, a: ActiveAccess): seq<Deed> {
    var r := a.request;
    if ExecutesAccess(f, a) && r.kind.StoreAccess? && (r.width == 1 || r.width == 2 || r.width == 4) then
      [SingleStore(a.region, r.addr, r.data, r.width)]
    else []
  }

  function AccessDeedsFrom(f: Fabric, i: nat): seq<Deed>
    requires FabricOk(f) && i <= |f.accesses|
    decreases |f.accesses| - i
  {
    if i == |f.accesses| then []
    else
      AdvanceAccessCount(f, i);
      AccessDeeds(f, f.accesses[i]) + AccessDeedsFrom(AdvanceAccessAt(f, i), i + 1)
  }

  lemma AdvanceAccessCount(f: Fabric, i: nat)
    requires FabricOk(f) && i < |f.accesses|
    ensures |AdvanceAccessAt(f, i).accesses| == |f.accesses| && AdvanceAccessAt(f, i).regions == f.regions
  {
  }

  function DeedsOf(f: Fabric, e: Event): seq<Deed>
    requires FabricOk(f) && Allowed(e)
  {
    match e
    case AdvanceB(id) => var i := BurstIndex(f, id); if i.Some? then BurstDeeds(f, f.bursts[i.value]) else []
    case Clock => AccessDeedsFrom(f, 0) + BurstDeedsFrom(AdvanceAccesses(f, 0), 0)
    case _ => []
  }

  function Deeds(f: Fabric, events: seq<Event>): seq<Deed>
    requires FabricOk(f) && AllowedRun(events)
    decreases |events|
  {
    if events == [] then [] else DeedsOf(f, events[0]) + Deeds(Next(f, events[0]), events[1..])
  }

  /* ---------- replaying ---------- */

  lemma SameDeed(f: Fabric, g: Fabric, bytes: Bytes, d: Deed)
    requires f.regions == g.regions && DeedOk(f, d)
    ensures DeedOk(g, d) && Redo(g, bytes, d) == Redo(f, bytes, d) && Truthful(g, bytes, d) == Truthful(f, bytes, d)
  {
    var f1, g1 := f.(bytes := bytes), g.(bytes := bytes);
    match d {
      case ReadBeat(_) =>
      case WriteBeat(beat) => StoreFromByRegions(f1, g1, beat.region, beat.addr, beat.word, 0, 4);
      case RefusedBeat(region, addr, word) => StoreFromByRegions(f1, g1, region, addr, word, 0, 4);
      case SingleStore(region, addr, word, width) => StoreFromByRegions(f1, g1, region, addr, word, 0, width);
    }
    hide StoreFrom;
  }

  lemma {:induction false} SameReplay(f: Fabric, g: Fabric, bytes: Bytes, deeds: seq<Deed>, after: Bytes)
    requires f.regions == g.regions && Replays(f, bytes, deeds, after)
    ensures Replays(g, bytes, deeds, after)
    decreases |deeds|
  {
    hide Redo, Truthful, DeedOk;
    if deeds != [] {
      SameDeed(f, g, bytes, deeds[0]);
      SameReplay(f, g, Redo(f, bytes, deeds[0]), deeds[1..], after);
    }
  }

  lemma {:induction false} ReplayConcat(f: Fabric, a: Bytes, s: seq<Deed>, b: Bytes, t: seq<Deed>, c: Bytes)
    requires Replays(f, a, s, b) && Replays(f, b, t, c)
    ensures Replays(f, a, s + t, c)
    decreases |s|
  {
    hide Redo, Truthful, DeedOk;
    if s == [] {
      assert s + t == t;
    } else {
      TailOfConcat(s, t);
      ReplayConcat(f, Redo(f, a, s[0]), s[1..], b, t, c);
    }
  }

  lemma {:induction false} BeatsConcat(s: seq<Deed>, t: seq<Deed>)
    ensures BeatsAmong(s + t) == BeatsAmong(s) + BeatsAmong(t)
  {
    if s == [] {
      assert s + t == t;
    } else {
      TailOfConcat(s, t);
      BeatsConcat(s[1..], t);
      ConcatAssociates(if s[0].ReadBeat? || s[0].WriteBeat? then [s[0].beat] else [], BeatsAmong(s[1..]), BeatsAmong(t));
    }
  }

  lemma ReplayOne(f: Fabric, bytes: Bytes, d: Deed, after: Bytes)
    requires DeedOk(f, d) && Truthful(f, bytes, d) && Redo(f, bytes, d) == after
    ensures Replays(f, bytes, [d], after)
  {
    hide DeedOk, Truthful, Redo;
    assert [d][1..] == [];
  }

  /* ---------- one step ---------- */

  lemma BurstReplays(f: Fabric, b: ActiveBurst)
    requires BurstOk(f, b)
    ensures Replays(f, f.bytes, BurstDeeds(f, b), AdvanceOne(f, b).bytes)
    ensures BeatsAmong(BurstDeeds(f, b)) == BeatsOf(f, b)
  {
    hide LoadWord, StoreWord;
    var deeds := BurstDeeds(f, b);
    assert f.(bytes := f.bytes) == f;
    if deeds != [] {
      ReplayOne(f, f.bytes, deeds[0], AdvanceOne(f, b).bytes);
      assert deeds == [deeds[0]];
    }
  }

  lemma BurstsReplay(f: Fabric, i: nat)
    requires FabricOk(f) && i <= |f.bursts|
    ensures Replays(f, f.bytes, BurstDeedsFrom(f, i), AdvanceBursts(f, i).bytes)
    ensures BeatsAmong(BurstDeedsFrom(f, i)) == BeatsFrom(f, i)
    decreases |f.bursts| - i
  {
    hide AdvanceOne, BurstDeeds, BeatsOf, FabricOk;
    if i < |f.bursts| {
      BurstOkAt(f, i);
      SameBurstCount(f, i);
      var b, g := f.bursts[i], AdvanceBurstAt(f, i);
      BurstReplays(f, b);
      BurstsReplay(g, i + 1);
      SameReplay(g, f, g.bytes, BurstDeedsFrom(g, i + 1), AdvanceBursts(g, i + 1).bytes);
      ReplayConcat(f, f.bytes, BurstDeeds(f, b), g.bytes, BurstDeedsFrom(g, i + 1), AdvanceBursts(g, i + 1).bytes);
      BeatsConcat(BurstDeeds(f, b), BurstDeedsFrom(g, i + 1));
    }
  }

  lemma BurstOkAt(f: Fabric, i: nat)
    requires FabricOk(f) && i < |f.bursts|
    ensures BurstOk(f, f.bursts[i])
  {
  }

  lemma AccessReplays(f: Fabric, a: ActiveAccess)
    requires a.region < |f.regions|
    ensures Replays(f, f.bytes, AccessDeeds(f, a), AdvanceAccess(f, a).0) && BeatsAmong(AccessDeeds(f, a)) == []
  {
    hide ReadPhase, StoreFrom;
    assert f.(bytes := f.bytes) == f;
    if AccessDeeds(f, a) != [] { ReplayOne(f, f.bytes, AccessDeeds(f, a)[0], AdvanceAccess(f, a).0); }
  }

  lemma AccessesReplay(f: Fabric, i: nat)
    requires FabricOk(f) && i <= |f.accesses|
    ensures Replays(f, f.bytes, AccessDeedsFrom(f, i), AdvanceAccesses(f, i).bytes) && BeatsAmong(AccessDeedsFrom(f, i)) == []
    decreases |f.accesses| - i
  {
    hide AdvanceAccess, AccessDeeds, FabricOk;
    if i < |f.accesses| {
      RegionsKnown(f, i);
      AdvanceAccessCount(f, i);
      var a, g := f.accesses[i], AdvanceAccessAt(f, i);
      AccessReplays(f, a);
      AccessesReplay(g, i + 1);
      SameReplay(g, f, g.bytes, AccessDeedsFrom(g, i + 1), AdvanceAccesses(g, i + 1).bytes);
      ReplayConcat(f, f.bytes, AccessDeeds(f, a), g.bytes, AccessDeedsFrom(g, i + 1), AdvanceAccesses(g, i + 1).bytes);
      BeatsConcat(AccessDeeds(f, a), AccessDeedsFrom(g, i + 1));
    }
  }

  lemma NextReplays(f: Fabric, e: Event)
    requires FabricOk(f) && Allowed(e)
    ensures Replays(f, f.bytes, DeedsOf(f, e), Next(f, e).bytes) && BeatsAmong(DeedsOf(f, e)) == Beats(f, e)
    ensures Next(f, e).regions == f.regions
  {
    hide BurstDeeds, BeatsOf, AdvanceBursts, AdvanceAccesses, BurstDeedsFrom, AccessDeedsFrom, BeatsFrom, FabricOk, AdvanceOne;
    match e {
      case AdvanceB(id) =>
        var i := BurstIndex(f, id);
        if i.Some? {
          BurstOkAt(f, i.value);
          BurstReplays(f, f.bursts[i.value]);
        }
      case Clock =>
        var g := AdvanceAccesses(f, 0);
        AccessesReplay(f, 0);
        BurstsReplay(g, 0);
        SameReplay(g, f, g.bytes, BurstDeedsFrom(g, 0), Tick(f).bytes);
        ReplayConcat(f, f.bytes, AccessDeedsFrom(f, 0), g.bytes, BurstDeedsFrom(g, 0), Tick(f).bytes);
        BeatsConcat(AccessDeedsFrom(f, 0), BurstDeedsFrom(g, 0));
        assert [] + BeatsFrom(g, 0) == BeatsFrom(g, 0);
      case _ =>
    }
  }

  /** For every run: the trace is the beats among its deeds, each read beat has the word its
      device held at that point, and the deeds alone, in order, take the memory of the start
      to the memory of the end. */
  lemma {:induction false} TraceIsMemory(f: Fabric, events: seq<Event>)
    requires FabricOk(f) && AllowedRun(events)
    ensures Replays(f, f.bytes, Deeds(f, events), Run(f, events).bytes)
    ensures BeatsAmong(Deeds(f, events)) == Trace(f, events)
    decreases |events|
  {
    hide Next, Beats, DeedsOf, FabricOk, Allowed, Redo, Truthful, DeedOk;
    if events != [] {
      assert Allowed(events[0]) by { FirstAllowed(events); }
      assert AllowedRun(events[1..]);
      var g := Next(f, events[0]);
      NextReplays(f, events[0]);
      TraceIsMemory(g, events[1..]);
      var rest := Deeds(g, events[1..]);
      SameReplay(g, f, g.bytes, rest, Run(f, events).bytes);
      ReplayConcat(f, f.bytes, DeedsOf(f, events[0]), g.bytes, rest, Run(f, events).bytes);
      BeatsConcat(DeedsOf(f, events[0]), rest);
    }
  }

  lemma FirstAllowed(events: seq<Event>)
    requires AllowedRun(events) && events != []
    ensures Allowed(events[0])
  {
  }
}
