/** Every beat of an accepted burst executes exactly once, in order, on the only device
    that holds its address, whatever else is in flight; and every burst finishes. */
module FabricProof {
  import opened Wrappers
  import opened BusFabric

  /* ---------- the beats that were executed ---------- */

  /** Beat `k` of burst `id`: what was read, or what was written. */
  datatype Beat = Beat(id: nat, k: nat, region: nat, addr: nat, word: Word4)

  function BeatWord(b: ActiveBurst, k: nat): Word4
    requires k < b.request.Beats() && |b.readWords| == b.request.Beats()
  {
    if b.request.ReadWords? then b.readWords[k] else b.request.words[k]
  }

  /** The beat that advancing this burst executes, if it executes one and succeeds. */
  function BeatsOf(f: Fabric, b: ActiveBurst): seq<Beat>
    requires BurstOk(f, b)
  {
    var a := AdvanceOne(f, b);
    if a.burst.beat == b.beat then []
    else [Beat(b.id, b.beat, b.region, b.request.BeatAddr(b.beat), BeatWord(a.burst, b.beat))]
  }

  function BeatsFrom(f: Fabric, i: nat): seq<Beat>
    requires FabricOk(f) && i <= |f.bursts|
    decreases |f.bursts| - i
  {
    if i == |f.bursts| then [] else BeatsOf(f, f.bursts[i]) + BeatsFrom(AdvanceBurstAt(f, i), i + 1)
  }

  datatype Event =
    | SubmitB(burst: BurstRequest)
    | SubmitA(access: AccessRequest)
    | AdvanceB(id: nat)
    | TakeB(id: nat)
    | TakeA(id: nat)
    | Clock

  /** A burst has at least one beat. */
  predicate Allowed(e: Event) { e.SubmitB? ==> e.burst.Beats() > 0 }

  function Next(f: Fabric, e: Event): (g: Fabric)
    requires FabricOk(f) && Allowed(e)
    ensures FabricOk(g) && g.nextId >= f.nextId
  {
    match e
    case SubmitB(r) => SubmitBurst(f, r).fabric
    case SubmitA(r) => SubmitAccess(f, r).fabric
    case AdvanceB(id) => AdvanceBurst(f, id)
    case TakeB(id) => TakeBurst(f, id).fabric
    case TakeA(id) => TakeAccess(f, id).fabric
    case Clock => Tick(f)
  }

  function Beats(f: Fabric, e: Event): seq<Beat>
    requires FabricOk(f) && Allowed(e)
  {
    match e
    case AdvanceB(id) => var i := BurstIndex(f, id); if i.Some? then BeatsOf(f, f.bursts[i.value]) else []
    case Clock => BeatsFrom(AdvanceAccesses(f, 0), 0)
    case _ => []
  }

  predicate AllowedRun(events: seq<Event>) { forall k | 0 <= k < |events| :: Allowed(events[k]) }

  function Run(f: Fabric, events: seq<Event>): (g: Fabric)
    requires FabricOk(f) && AllowedRun(events)
    ensures FabricOk(g)
    decreases |events|
  {
    if events == [] then f else Run(Next(f, events[0]), events[1..])
  }

  /** All the beats of a run, in the order they were executed. */
  function Trace(f: Fabric, events: seq<Event>): seq<Beat>
    requires FabricOk(f) && AllowedRun(events)
    decreases |events|
  {
    if events == [] then [] else Beats(f, events[0]) + Trace(Next(f, events[0]), events[1..])
  }

  function History(trace: seq<Beat>, id: nat): seq<Beat> {
    if trace == [] then [] else (if trace[0].id == id then [trace[0]] else []) + History(trace[1..], id)
  }

  lemma {:induction false} HistoryConcat(s: seq<Beat>, t: seq<Beat>, id: nat)
    ensures History(s + t, id) == History(s, id) + History(t, id)
  {
    if s == [] {
      assert s + t == t;
      assert [] + History(t, id) == History(t, id);
    } else {
      TailOfConcat(s, t);
      HistoryConcat(s[1..], t, id);
      ConcatAssociates(if s[0].id == id then [s[0]] else [], History(s[1..], id), History(t, id));
    }
  }

  lemma {:induction false} HistoryOfOthers(s: seq<Beat>, id: nat)
    requires forall k | 0 <= k < |s| :: s[k].id != id
    ensures History(s, id) == []
  {
    if s != [] { HistoryOfOthers(s[1..], id); }
  }

  /* ---------- the invariant ---------- */

  /** These are beats 0, 1, ... of the burst, at its addresses, with its words. */
  predicate InOrder(b: ActiveBurst, h: seq<Beat>)
    requires |h| <= b.request.Beats() && |b.readWords| == b.request.Beats()
  {
    forall k | 0 <= k < |h| :: h[k] == Beat(b.id, k, b.region, b.request.BeatAddr(k), BeatWord(b, k))
  }

  predicate BurstRecorded(f: Fabric, b: ActiveBurst, h: seq<Beat>)
    requires BurstOk(f, b)
  {
    |h| == b.beat && InOrder(b, h) && forall k | 0 <= k < b.request.Beats() :: f.regions[b.region].Contains(b.request.BeatAddr(k))
  }

  ghost predicate Recorded(f: Fabric, trace: seq<Beat>) {
    FabricOk(f) && (forall i | 0 <= i < |f.bursts| :: BurstRecorded(f, f.bursts[i], History(trace, f.bursts[i].id))) &&
    (forall j | 0 <= j < |trace| :: trace[j].id < f.nextId)
  }

  lemma AdvanceOneRecords(f: Fabric, b: ActiveBurst, h: seq<Beat>)
    requires BurstOk(f, b) && BurstRecorded(f, b, h)
    ensures BurstRecorded(f, AdvanceOne(f, b).burst, h + BeatsOf(f, b))
  {
    hide LoadWord, StoreWord;
  }

  lemma BeatsAreOwn(f: Fabric, b: ActiveBurst)
    requires BurstOk(f, b)
    ensures forall k | 0 <= k < |BeatsOf(f, b)| :: BeatsOf(f, b)[k].id == b.id
  {
    hide AdvanceOne, BeatWord;
  }

  lemma OwnHistory(f: Fabric, b: ActiveBurst)
    requires BurstOk(f, b)
    ensures History(BeatsOf(f, b), b.id) == BeatsOf(f, b)
  {
    hide AdvanceOne, BeatWord;
  }

  lemma AdvanceRecords(f: Fabric, i: nat, trace: seq<Beat>)
    requires Recorded(f, trace) && i < |f.bursts|
    ensures Recorded(AdvanceBurstAt(f, i), trace + BeatsOf(f, f.bursts[i]))
  {
    hide AdvanceOne, BurstRecorded, BeatsOf;
    var b := f.bursts[i];
    var added := BeatsOf(f, b);
    var g := AdvanceBurstAt(f, i);
    AdvanceOneRecords(f, b, History(trace, b.id));
    BeatsAreOwn(f, b);
    forall k | 0 <= k < |g.bursts| ensures BurstRecorded(g, g.bursts[k], History(trace + added, g.bursts[k].id)) {
      HistoryConcat(trace, added, g.bursts[k].id);
      if k == i {
        OwnHistory(f, b);
        assert History(trace + added, b.id) == History(trace, b.id) + added;
        RecordedElsewhere(f, g, AdvanceOne(f, b).burst, History(trace, b.id) + added);
      } else {
        HistoryOfOthers(added, f.bursts[k].id);
        assert History(trace, f.bursts[k].id) + [] == History(trace, f.bursts[k].id);
        RecordedElsewhere(f, g, f.bursts[k], History(trace, f.bursts[k].id));
      }
    }
  }

  /** What is recorded of a burst does not depend on the bytes of memory. */
  lemma RecordedElsewhere(f: Fabric, g: Fabric, b: ActiveBurst, h: seq<Beat>)
    requires f.regions == g.regions && BurstOk(f, b) && BurstOk(g, b) && BurstRecorded(f, b, h)
    ensures BurstRecorded(g, b, h)
  {
  }

  lemma {:induction false} TickRecords(f: Fabric, i: nat, trace: seq<Beat>)
    requires Recorded(f, trace) && i <= |f.bursts|
    ensures Recorded(AdvanceBursts(f, i), trace + BeatsFrom(f, i))
    decreases |f.bursts| - i
  {
    RecordedIsFabricOk(f, trace);
    SameCount(f, i);
    hide AdvanceBurstAt, BeatsOf, Recorded, FabricOk, History, BurstRecorded;
    if i == |f.bursts| {
      assert trace + [] == trace;
    } else {
      AdvanceRecords(f, i, trace);
      TickRecords(AdvanceBurstAt(f, i), i + 1, trace + BeatsOf(f, f.bursts[i]));
      ConcatAssociates(trace, BeatsOf(f, f.bursts[i]), BeatsFrom(AdvanceBurstAt(f, i), i + 1));
    }
  }

  lemma SameCount(f: Fabric, i: nat)
    requires FabricOk(f)
    ensures i < |f.bursts| ==> |AdvanceBurstAt(f, i).bursts| == |f.bursts|
  {
  }

  lemma AccessesRecord(f: Fabric, i: nat, trace: seq<Beat>)
    requires Recorded(f, trace) && i <= |f.accesses|
    ensures Recorded(AdvanceAccesses(f, i), trace)
  {
    var g := AdvanceAccesses(f, i);
    forall k | 0 <= k < |g.bursts| ensures BurstRecorded(g, g.bursts[k], History(trace, g.bursts[k].id)) {
      RecordedElsewhere(f, g, f.bursts[k], History(trace, f.bursts[k].id));
    }
  }

  lemma {:induction false} CrossingNone(f: Fabric, request: BurstRequest, region: nat, k: nat, j: nat)
    requires k <= j < request.Beats() && CrossingBeat(f, request, region, k).None?
    ensures FindRegion(f.regions, request.BeatAddr(j)) == Some(region)
    decreases j - k
  {
    if k < j { CrossingNone(f, request, region, k + 1, j); }
  }

  lemma SubmitRecords(f: Fabric, request: BurstRequest, trace: seq<Beat>)
    requires Recorded(f, trace) && request.Beats() > 0
    ensures Recorded(SubmitBurst(f, request).fabric, trace)
  {
    var g := SubmitBurst(f, request).fabric;
    if g != f {
      var b := g.bursts[|f.bursts|];
      HistoryOfOthers(trace, f.nextId);
      forall k | 0 <= k < request.Beats() ensures f.regions[b.region].Contains(request.BeatAddr(k)) {
        if k > 0 { CrossingNone(f, request, b.region, 1, k); }
      }
      forall k | 0 <= k < |g.bursts| ensures BurstRecorded(g, g.bursts[k], History(trace, g.bursts[k].id)) {
        if k < |f.bursts| { RecordedElsewhere(f, g, f.bursts[k], History(trace, f.bursts[k].id)); }
      }
    }
  }

  lemma TakeRecords(f: Fabric, id: nat, trace: seq<Beat>)
    requires Recorded(f, trace)
    ensures Recorded(TakeBurst(f, id).fabric, trace)
  {
    var g := TakeBurst(f, id).fabric;
    hide BurstRecorded, AdvanceOne;
    forall k | 0 <= k < |g.bursts| ensures BurstRecorded(g, g.bursts[k], History(trace, g.bursts[k].id)) {
      var i := BurstIndex(f, id);
      var from := if |g.bursts| < |f.bursts| && k == i.value then |f.bursts| - 1 else k;
      RecordedElsewhere(f, g, f.bursts[from], History(trace, f.bursts[from].id));
    }
  }

  lemma NextRecords(f: Fabric, e: Event, trace: seq<Beat>)
    requires Recorded(f, trace) && Allowed(e)
    ensures Recorded(Next(f, e), trace + Beats(f, e))
  {
    hide SubmitBurst, TakeBurst, AdvanceBursts, AdvanceAccesses, AdvanceBurstAt, BeatsFrom, BeatsOf;
    assert trace + [] == trace;
    match e {
      case SubmitB(r) => SubmitRecords(f, r, trace);
      case AdvanceB(id) =>
        var i := BurstIndex(f, id);
        if i.Some? { AdvanceRecords(f, i.value, trace); }
      case TakeB(id) => TakeRecords(f, id, trace);
      case Clock =>
        AccessesRecord(f, 0, trace);
        TickRecords(AdvanceAccesses(f, 0), 0, trace);
      case SubmitA(r) => SameBurstsRecorded(f, Next(f, e), trace);
      case TakeA(id) => SameBurstsRecorded(f, Next(f, e), trace);
    }
  }

  lemma SameBurstsRecorded(f: Fabric, g: Fabric, trace: seq<Beat>)
    requires Recorded(f, trace) && FabricOk(g) && g.bursts == f.bursts && g.regions == f.regions && g.nextId >= f.nextId
    ensures Recorded(g, trace)
  {
    forall k | 0 <= k < |g.bursts| ensures BurstRecorded(g, g.bursts[k], History(trace, g.bursts[k].id)) {
      RecordedElsewhere(f, g, f.bursts[k], History(trace, f.bursts[k].id));
    }
  }

  lemma {:induction false} RunRecords(f: Fabric, events: seq<Event>, trace: seq<Beat>)
    requires Recorded(f, trace) && AllowedRun(events)
    ensures Recorded(Run(f, events), trace + Trace(f, events))
    decreases |events|
  {
    hide Next, Beats, Recorded, BurstRecorded, FabricOk, History, Allowed;
    if events == [] {
      assert trace + [] == trace;
    } else {
      RecordedIsFabricOk(f, trace);
      NextRecords(f, events[0], trace);
      RunRecords(Next(f, events[0]), events[1..], trace + Beats(f, events[0]));
      ConcatAssociates(trace, Beats(f, events[0]), Trace(Next(f, events[0]), events[1..]));
    }
  }

  lemma RecordedIsFabricOk(f: Fabric, trace: seq<Beat>)
    requires Recorded(f, trace)
    ensures FabricOk(f)
  {
  }

  /** A fabric nothing has been submitted to. */
  predicate Fresh(f: Fabric) { Disjoint(f.regions) && f.bursts == [] && f.accesses == [] }

  /** In every run, whatever the overlap of requests and the order of removals, the beats
      executed for an active burst are its beats 0, 1, ..., each once, on its one device,
      and a read burst holds the words they read. */
  lemma EveryBeatOnceInOrder(f: Fabric, events: seq<Event>)
    requires Fresh(f) && AllowedRun(events)
    ensures Recorded(Run(f, events), Trace(f, events))
  {
    RunRecords(f, events, []);
    assert [] + Trace(f, events) == Trace(f, events);
  }

  /** When a burst is taken all its beats have executed, and a read burst answers with the
      words read, in order. */
  lemma TakenIsComplete(f: Fabric, id: nat, trace: seq<Beat>)
    requires Recorded(f, trace)
    ensures var t, h := TakeBurst(f, id), History(trace, id);
            t.response.Some? && t.response.value.Done? ==>
              BurstIndex(f, id).Some? &&
              var b := f.bursts[BurstIndex(f, id).value];
              |h| == b.request.Beats() && InOrder(b, h) &&
              match t.response.value.value
              case WordsRead(words) => |words| == |h| && forall k | 0 <= k < |h| :: words[k] == h[k].word
              case WordsWritten(beats) => beats == |h|
  {
  }

  /* ---------- nothing after the end ---------- */

  predicate Gone(f: Fabric, id: nat) {
    id < f.nextId && forall k | 0 <= k < |f.bursts| :: f.bursts[k].id != id
  }

  lemma {:induction false} BeatsFromActive(f: Fabric, i: nat, id: nat)
    requires FabricOk(f) && i <= |f.bursts| && Gone(f, id)
    ensures History(BeatsFrom(f, i), id) == [] && Gone(AdvanceBursts(f, i), id)
    decreases |f.bursts| - i
  {
    if i < |f.bursts| {
      BeatsFromActive(AdvanceBurstAt(f, i), i + 1, id);
      HistoryOfOthers(BeatsOf(f, f.bursts[i]), id);
      HistoryConcat(BeatsOf(f, f.bursts[i]), BeatsFrom(AdvanceBurstAt(f, i), i + 1), id);
    }
  }

  /** Once a burst has been taken its id never returns and no beat of it executes again. */
  lemma {:induction false} NoBeatAfterwards(f: Fabric, events: seq<Event>, id: nat)
    requires FabricOk(f) && AllowedRun(events) && Gone(f, id)
    ensures History(Trace(f, events), id) == [] && Gone(Run(f, events), id)
    decreases |events|
  {
    if events != [] {
      var g := Next(f, events[0]);
      GoneStays(f, events[0], id);
      NoBeatAfterwards(g, events[1..], id);
      HistoryConcat(Beats(f, events[0]), Trace(g, events[1..]), id);
    }
  }

  lemma GoneStays(f: Fabric, e: Event, id: nat)
    requires FabricOk(f) && Allowed(e) && Gone(f, id)
    ensures Gone(Next(f, e), id) && History(Beats(f, e), id) == []
  {
    match e {
      case Clock => BeatsFromActive(AdvanceAccesses(f, 0), 0, id);
      case AdvanceB(other) =>
        var i := BurstIndex(f, other);
        if i.Some? { HistoryOfOthers(BeatsOf(f, f.bursts[i.value]), id); }
      case _ =>
    }
  }

  /* ---------- every burst finishes ---------- */

  predicate Finished(b: ActiveBurst) { b.phase.Ready? || b.phase.Failed? }

  /** Beats left, then whether the beat has started, then its cycles left. */
  datatype Rank = Rank(beats: nat, phase: nat, cycles: nat)

  function RankOf(b: ActiveBurst): Rank
    requires b.beat <= b.request.Beats()
  {
    if Finished(b) then Rank(0, 0, 0)
    else Rank(b.request.Beats() - b.beat, if b.phase.Accepted? then 1 else 0, if b.phase.InFlight? then b.phase.cycles else 0)
  }

  predicate Below(r: Rank, s: Rank) {
    r.beats < s.beats || (r.beats == s.beats && (r.phase < s.phase || (r.phase == s.phase && r.cycles < s.cycles)))
  }

  lemma AdvanceLowersRank(f: Fabric, b: ActiveBurst)
    requires BurstOk(f, b) && !Finished(b)
    ensures Below(RankOf(AdvanceOne(f, b).burst), RankOf(b))
  {
    hide LoadWord, StoreWord;
  }

  /** Each tick lowers the rank of every burst that is neither ready nor failed. */
  lemma {:induction false} TickLowersRank(f: Fabric, i: nat, k: nat)
    requires FabricOk(f) && i <= k < |f.bursts| && !Finished(f.bursts[k])
    ensures Below(RankOf(AdvanceBursts(f, i).bursts[k]), RankOf(f.bursts[k]))
    decreases |f.bursts| - i
  {
    var g := AdvanceBurstAt(f, i);
    if i == k {
      AdvanceLowersRank(f, f.bursts[k]);
      assert AdvanceBursts(g, i + 1).bursts[k] == g.bursts[k];
    } else {
      TickLowersRank(g, i + 1, k);
    }
  }

  lemma ClockLowersRank(f: Fabric, k: nat)
    requires FabricOk(f) && k < |f.bursts| && !Finished(f.bursts[k])
    ensures Below(RankOf(Tick(f).bursts[k]), RankOf(f.bursts[k]))
  {
    TickLowersRank(AdvanceAccesses(f, 0), 0, k);
  }
}
