/** The memory-to-memory DMA engine: bounded read-ahead bursts over a bus that may serve
    its requests in any order but answers them in the order they were made. */
module Dma {
  import opened Wrappers
  import opened BusFabric

  const MAX_BURST_WORDS: nat := 8
  const MAX_OUTSTANDING_REQUESTS: nat := 4

  datatype WriteBurst = WriteBurst(destination: nat, words: seq<Word4>)
  datatype Issued = ReadIssued(destination: nat, beats: nat) | WriteIssued(beats: nat)

  datatype Transfer = Transfer(
    nextSource: nat, nextDestination: nat, remaining: nat, ready: seq<WriteBurst>, issued: seq<Issued>)

  datatype Engine = Engine(
    source: nat, destination: nat, length: nat, transferred: nat, done: bool, error: bool, active: Option<Transfer>)

  datatype MasterRequest =
    | LoadOne(addr: nat)
    | StoreOne(addr: nat, value: Word4)
    | ReadMany(base: nat, beats: nat)
    | WriteMany(base: nat, words: seq<Word4>)
  datatype MasterResponse = LoadedOne(word: Word4) | StoredOne | ReadDone(words: seq<Word4>) | WriteDone(beats: nat)

  /* ---------- the engine ---------- */

  function ReadsIn(issued: seq<Issued>): nat {
    if issued == [] then 0 else (if issued[0].ReadIssued? then 1 else 0) + ReadsIn(issued[1..])
  }

  /** `buffered_read_bursts`: read data on its way or waiting to be written. */
  function Buffered(t: Transfer): nat { |t.ready| + ReadsIn(t.issued) }

  predicate Complete(t: Transfer) { t.remaining == 0 && t.ready == [] && t.issued == [] }

  function BurstWords(remaining: nat): nat { if remaining <= MAX_BURST_WORDS then remaining else MAX_BURST_WORDS }

  /** `start_transfer`; a length of zero is an error. */
  function Start(e: Engine): Engine {
    if e.active.Some? then e
    else if e.length == 0 then e.(done := false, error := true, transferred := 0)
    else e.(done := false, error := false, transferred := 0,
            active := Some(Transfer(e.source, e.destination, e.length, [], [])))
  }

  datatype Asked = Asked(engine: Engine, request: Option<MasterRequest>)

  function IssueWrite(e: Engine, t: Transfer): Asked
    requires t.ready != []
  {
    var write := t.ready[0];
    Asked(e.(active := Some(t.(ready := t.ready[1..], issued := t.issued + [WriteIssued(|write.words|)]))),
          Some(WriteMany(write.destination, write.words)))
  }

  function IssueRead(e: Engine, t: Transfer): Asked {
    var beats := BurstWords(t.remaining);
    Asked(e.(active := Some(t.(nextSource := t.nextSource + 4 * beats, nextDestination := t.nextDestination + 4 * beats,
                               remaining := t.remaining - beats, issued := t.issued + [ReadIssued(t.nextDestination, beats)]))),
          Some(ReadMany(t.nextSource, beats)))
  }

  /** `request`: write when the read-ahead is full or over, else read on. */
  function Request(e: Engine): Asked {
    if e.active.None? then Asked(e, None)
    else
      var t := e.active.value;
      if t.ready != [] && (t.remaining == 0 || Buffered(t) >= MAX_OUTSTANDING_REQUESTS) then IssueWrite(e, t)
      else if t.remaining > 0 && Buffered(t) < MAX_OUTSTANDING_REQUESTS then IssueRead(e, t)
      else if t.ready != [] then IssueWrite(e, t)
      else Asked(e, None)
  }

  /** `on_response`: anything but the answer to the oldest request is an error. */
  function OnResponse(e: Engine, response: Outcome<MasterResponse>): Engine {
    if e.active.None? then e
    else if e.active.value.issued == [] then e.(active := None, error := true)
    else
      var t, first := e.active.value, e.active.value.issued[0];
      var rest := t.(issued := t.issued[1..]);
      if first.ReadIssued? && response.Done? && response.value.ReadDone? && |response.value.words| == first.beats then
        Settled(e, rest.(ready := rest.ready + [WriteBurst(first.destination, response.value.words)]))
      else if first.WriteIssued? && response.Done? && response.value.WriteDone? && response.value.beats == first.beats then
        Settled(e.(transferred := e.transferred + first.beats), rest)
      else e.(active := None, error := true)
  }

  function Settled(e: Engine, t: Transfer): Engine {
    if Complete(t) then e.(active := None, done := true) else e.(active := Some(t))
  }

  /* ---------- the engine and its bus ---------- */

  /** A request below: its beats are done one at a time. */
  datatype Flight = Flight(request: MasterRequest, beat: nat, got: seq<Word4>)

  /** The counters count the bursts issued so far. */
  datatype System = System(engine: Engine, bytes: Bytes, flights: seq<Flight>, readBursts: nat, writeBursts: nat)

  datatype Action = Ask | Serve(index: nat) | Answer

  function Beats(r: MasterRequest): nat {
    match r
    case ReadMany(_, beats) => beats
    case WriteMany(_, words) => |words|
    case _ => 1
  }

  function AskBus(s: System): System {
    var a := Request(s.engine);
    match a.request
    case None => s.(engine := a.engine)
    case Some(r) =>
      s.(engine := a.engine, flights := s.flights + [Flight(r, 0, [])],
         readBursts := s.readBursts + (if r.ReadMany? then 1 else 0), writeBursts := s.writeBursts + (if r.WriteMany? then 1 else 0))
  }

  /** Perform one beat of any request in flight. */
  function ServeBeat(s: System, i: nat): System
    requires i < |s.flights|
  {
    var f := s.flights[i];
    if f.beat >= Beats(f.request) then s
    else
      match f.request
      case ReadMany(base, _) =>
        (match WordAt(s.bytes, base + 4 * f.beat)
         case None => s
         case Some(w) => s.(flights := s.flights[i := f.(beat := f.beat + 1, got := f.got + [w])]))
      case WriteMany(base, words) =>
        s.(bytes := Overwritten(s.bytes, base + 4 * f.beat, words[f.beat]), flights := s.flights[i := f.(beat := f.beat + 1)])
      case _ => s
  }

  function ResponseFor(f: Flight): MasterResponse {
    match f.request
    case ReadMany(_, _) => ReadDone(f.got)
    case WriteMany(_, words) => WriteDone(|words|)
    case LoadOne(_) => LoadedOne(ZERO_WORD)
    case StoreOne(_, _) => StoredOne
  }

  /** Answer the oldest request, once it has been served. */
  function AnswerOldest(s: System): System {
    if s.flights == [] || s.flights[0].beat < Beats(s.flights[0].request) then s
    else s.(engine := OnResponse(s.engine, Done(ResponseFor(s.flights[0]))), flights := s.flights[1..])
  }

  function Next(s: System, a: Action): System {
    match a
    case Ask => AskBus(s)
    case Serve(i) => if i < |s.flights| then ServeBeat(s, i) else s
    case Answer => AnswerOldest(s)
  }

  /* ---------- what is copied ---------- */

  datatype Copy = Copy(source: nat, destination: nat, length: nat, original: Bytes)

  /** Word j of the source, and of the destination, in these bytes. */
  function SourceAt(c: Copy, bytes: Bytes, j: nat): Option<Word4> { WordAt(bytes, c.source + 4 * j) }
  function DestinationAt(c: Copy, bytes: Bytes, j: nat): Option<Word4> { WordAt(bytes, c.destination + 4 * j) }

  /** The two ranges are mapped and do not overlap. */
  ghost predicate Disjoint(c: Copy) {
    (c.source + 4 * c.length <= c.destination || c.destination + 4 * c.length <= c.source) &&
    (forall j | 0 <= j < c.length :: SourceAt(c, c.original, j).Some?) &&
    (forall j | 0 <= j < c.length :: DestinationAt(c, c.original, j).Some?)
  }

  predicate InDestination(c: Copy, a: nat) { c.destination <= a < c.destination + 4 * c.length }

  /** Only destination words have changed. */
  ghost predicate Framed(c: Copy, bytes: Bytes) {
    bytes.Keys == c.original.Keys && forall a | a in bytes && !InDestination(c, a) :: bytes[a] == c.original[a]
  }

  predicate Written(c: Copy, bytes: Bytes, j: nat) {
    DestinationAt(c, bytes, j) == SourceAt(c, c.original, j)
  }

  predicate WrittenFrom(c: Copy, bytes: Bytes, p: nat, count: nat) {
    forall j | p <= j < p + count :: Written(c, bytes, j)
  }

  /** These are the source words from position p on. */
  predicate FromSource(c: Copy, words: seq<Word4>, p: nat) {
    p + |words| <= c.length && forall k | 0 <= k < |words| :: Some(words[k]) == SourceAt(c, c.original, p + k)
  }

  /** The position, in words, of an address in a range. */
  function Position(base: nat, addr: nat): nat
    requires base <= addr
  {
    (addr - base) / 4
  }

  predicate OnWord(base: nat, addr: nat) { base <= addr && (addr - base) % 4 == 0 }

  predicate ReadyOk(c: Copy, w: WriteBurst) {
    w.words != [] && OnWord(c.destination, w.destination) && FromSource(c, w.words, Position(c.destination, w.destination))
  }

  predicate FlightOk(c: Copy, bytes: Bytes, f: Flight, issued: Issued) {
    match f.request
    case ReadMany(base, beats) =>
      issued.ReadIssued? && issued.beats == beats > 0 && OnWord(c.source, base) && OnWord(c.destination, issued.destination) &&
      Position(c.destination, issued.destination) == Position(c.source, base) &&
      Position(c.source, base) + beats <= c.length && |f.got| == f.beat <= beats && FromSource(c, f.got, Position(c.source, base))
    case WriteMany(base, words) =>
      issued == WriteIssued(|words|) && words != [] && OnWord(c.destination, base) &&
      FromSource(c, words, Position(c.destination, base)) && f.beat <= |words| &&
      WrittenFrom(c, bytes, Position(c.destination, base), f.beat)
    case _ => false
  }

  predicate Within(p: nat, length: nat, j: nat) { p <= j < p + length }

  predicate InReady(c: Copy, ready: seq<WriteBurst>, j: nat) {
    exists i :: 0 <= i < |ready| && c.destination <= ready[i].destination &&
                Within(Position(c.destination, ready[i].destination), |ready[i].words|, j)
  }

  predicate FlightCarries(c: Copy, f: Flight, j: nat) {
    match f.request
    case ReadMany(base, beats) => c.source <= base && Within(Position(c.source, base), beats, j)
    case WriteMany(base, words) => c.destination <= base && Within(Position(c.destination, base), |words|, j)
    case _ => false
  }

  predicate InFlightWord(c: Copy, flights: seq<Flight>, j: nat) {
    exists i :: 0 <= i < |flights| && FlightCarries(c, flights[i], j)
  }

  /** A word taken up by the engine has been written or is still carried somewhere. */
  predicate Accounted(c: Copy, s: System, t: Transfer, j: nat) {
    Written(c, s.bytes, j) || InReady(c, t.ready, j) || InFlightWord(c, s.flights, j)
  }

  /* ---------- the invariant ---------- */

  function BeatsIssued(issued: seq<Issued>): nat { if issued == [] then 0 else issued[0].beats + BeatsIssued(issued[1..]) }

  function WordsReady(ready: seq<WriteBurst>): nat { if ready == [] then 0 else |ready[0].words| + WordsReady(ready[1..]) }

  /** Bursts of eight words that `words` words take. */
  function Bursts(words: nat): nat { (words + MAX_BURST_WORDS - 1) / MAX_BURST_WORDS }

  /** Every word is still to be read, on its way in or out, waiting, or transferred. */
  predicate Conserved(c: Copy, e: Engine, t: Transfer) {
    c.length == t.remaining + BeatsIssued(t.issued) + WordsReady(t.ready) + e.transferred
  }

  predicate Counted(c: Copy, readBursts: nat, writeBursts: nat, t: Transfer) {
    readBursts == writeBursts + |t.ready| + ReadsIn(t.issued) &&
    (if t.remaining > 0 then 8 * readBursts == c.length - t.remaining else readBursts == Bursts(c.length))
  }

  predicate EngineFor(c: Copy, e: Engine) {
    e.source == c.source && e.destination == c.destination && e.length == c.length && !e.error
  }

  predicate Numbers(c: Copy, e: Engine, t: Transfer) {
    t.remaining <= c.length && t.nextSource == c.source + 4 * (c.length - t.remaining) &&
    t.nextDestination == c.destination + 4 * (c.length - t.remaining) && !Complete(t) &&
    Buffered(t) <= MAX_OUTSTANDING_REQUESTS && Conserved(c, e, t)
  }

  predicate FlightsOk(c: Copy, bytes: Bytes, flights: seq<Flight>, issued: seq<Issued>) {
    |flights| == |issued| && forall i | 0 <= i < |flights| :: FlightOk(c, bytes, flights[i], issued[i])
  }

  predicate ReadyAll(c: Copy, ready: seq<WriteBurst>) { forall i | 0 <= i < |ready| :: ReadyOk(c, ready[i]) }

  predicate AllAccounted(c: Copy, s: System, t: Transfer) {
    forall j | 0 <= j < c.length - t.remaining :: Accounted(c, s, t, j)
  }

  ghost predicate Running(c: Copy, s: System) {
    s.engine.active.Some? && EngineFor(c, s.engine) && !s.engine.done &&
    var t := s.engine.active.value;
    Numbers(c, s.engine, t) && Counted(c, s.readBursts, s.writeBursts, t) && Framed(c, s.bytes) && FlightsOk(c, s.bytes, s.flights, t.issued) &&
    ReadyAll(c, t.ready) && AllAccounted(c, s, t)
  }

  ghost predicate Copied(c: Copy, s: System) {
    s.engine.active.None? && EngineFor(c, s.engine) && s.engine.done && s.engine.transferred == c.length && s.flights == [] &&
    Framed(c, s.bytes) && (forall j | 0 <= j < c.length :: Written(c, s.bytes, j)) &&
    s.readBursts == s.writeBursts == Bursts(c.length)
  }

  ghost predicate Ok(c: Copy, s: System) { Disjoint(c) && c.length > 0 && (Running(c, s) || Copied(c, s)) }

  /** A transfer starts with nothing in flight below. */
  function StartSystem(c: Copy): System {
    System(Start(Engine(c.source, c.destination, c.length, 0, false, false, None)), c.original, [], 0, 0)
  }

  lemma StartsOk(c: Copy)
    requires Disjoint(c) && c.length > 0
    ensures Ok(c, StartSystem(c))
  {
  }

  /* ---------- sums ---------- */

  lemma {:induction false} IssuedAppend(issued: seq<Issued>, x: Issued)
    ensures BeatsIssued(issued + [x]) == BeatsIssued(issued) + x.beats
    ensures ReadsIn(issued + [x]) == ReadsIn(issued) + (if x.ReadIssued? then 1 else 0)
  {
    if issued == [] {
      assert [] + [x] == [x];
    } else {
      IssuedAppend(issued[1..], x);
      assert (issued + [x])[1..] == issued[1..] + [x];
    }
  }

  lemma {:induction false} ReadyAppend(ready: seq<WriteBurst>, x: WriteBurst)
    ensures WordsReady(ready + [x]) == WordsReady(ready) + |x.words|
  {
    if ready == [] {
      assert [] + [x] == [x];
    } else {
      ReadyAppend(ready[1..], x);
      assert (ready + [x])[1..] == ready[1..] + [x];
    }
  }

  /* ---------- asking for a burst ---------- */

  /** What carries a word may move from the waiting list to a flight. */
  lemma IssueWriteKeeps(c: Copy, s: System)
    requires Disjoint(c) && Running(c, s) && s.engine.active.value.ready != []
    requires Request(s.engine) == IssueWrite(s.engine, s.engine.active.value)
    ensures Running(c, AskBus(s))
  {
    var t, r := s.engine.active.value, AskBus(s);
    var u, w, last := r.engine.active.value, t.ready[0], |s.flights|;
    IssuedAppend(t.issued, WriteIssued(|w.words|));
    assert t.ready == [w] + u.ready;
    assert r.flights[last] == Flight(WriteMany(w.destination, w.words), 0, []);
    assert FlightsOk(c, r.bytes, r.flights, u.issued) by {
      assert ReadyOk(c, w);
      assert FlightOk(c, r.bytes, r.flights[last], u.issued[last]);
    }
    hide FlightOk, ReadyOk;
    forall j | 0 <= j < c.length - u.remaining ensures Accounted(c, r, u, j) {
      assert Accounted(c, s, t, j);
      WordMoves(c, s, r, t, u, j);
    }
    hide Framed, Accounted;
  }

  /** The first waiting burst becomes the last flight. */
  lemma WordMoves(c: Copy, s: System, r: System, t: Transfer, u: Transfer, j: nat)
    requires t.ready != [] && u.ready == t.ready[1..] && r.bytes == s.bytes && Accounted(c, s, t, j)
    requires r.flights == s.flights + [Flight(WriteMany(t.ready[0].destination, t.ready[0].words), 0, [])]
    ensures Accounted(c, r, u, j)
  {
    hide Written;
    if InReady(c, t.ready, j) {
      var i :| 0 <= i < |t.ready| && c.destination <= t.ready[i].destination &&
               Within(Position(c.destination, t.ready[i].destination), |t.ready[i].words|, j);
      if i == 0 { assert FlightCarries(c, r.flights[|s.flights|], j); } else { assert u.ready[i - 1] == t.ready[i]; }
    } else if InFlightWord(c, s.flights, j) {
      FlightStays(c, s.flights, r.flights, j);
    }
  }

  lemma FlightStays(c: Copy, flights: seq<Flight>, more: seq<Flight>, j: nat)
    requires flights <= more && InFlightWord(c, flights, j)
    ensures InFlightWord(c, more, j)
  {
    var i :| 0 <= i < |flights| && FlightCarries(c, flights[i], j);
    assert more[i] == flights[i];
  }

  lemma IssueReadKeeps(c: Copy, s: System)
    requires Disjoint(c) && Running(c, s) && s.engine.active.value.remaining > 0
    requires Buffered(s.engine.active.value) < MAX_OUTSTANDING_REQUESTS
    requires Request(s.engine) == IssueRead(s.engine, s.engine.active.value)
    ensures Running(c, AskBus(s))
  {
    var t, r := s.engine.active.value, AskBus(s);
    var u, beats, last, p := r.engine.active.value, BurstWords(t.remaining), |s.flights|, c.length - t.remaining;
    IssuedAppend(t.issued, ReadIssued(t.nextDestination, beats));
    var flight := Flight(ReadMany(t.nextSource, beats), 0, []);
    assert r.flights == s.flights + [flight];
    assert Position(c.source, t.nextSource) == p && Position(c.destination, t.nextDestination) == p;
    assert FlightsOk(c, r.bytes, r.flights, u.issued) by {
      assert FlightOk(c, r.bytes, r.flights[last], u.issued[last]);
    }
    assert forall j | p <= j < p + beats :: FlightCarries(c, flight, j);
    hide FlightOk, FlightCarries, Position, Written, Framed, ReadyOk;
    forall j | 0 <= j < c.length - u.remaining ensures Accounted(c, r, u, j) {
      if j >= p {
        assert FlightCarries(c, r.flights[last], j);
      } else {
        assert Accounted(c, s, t, j);
        if InFlightWord(c, s.flights, j) { FlightStays(c, s.flights, r.flights, j); }
      }
    }
    hide Accounted;
    assert Counted(c, r.readBursts, r.writeBursts, u) by { ReadCounted(c, s, t, beats); }
  }

  /** Bursts of eight, and a last one of what is left. */
  lemma ReadCounted(c: Copy, s: System, t: Transfer, beats: nat)
    requires Counted(c, s.readBursts, s.writeBursts, t) && 0 < t.remaining <= c.length && beats == BurstWords(t.remaining)
    ensures if t.remaining > beats then 8 * (s.readBursts + 1) == c.length - (t.remaining - beats)
            else s.readBursts + 1 == Bursts(c.length)
  {
  }

  lemma AskKeeps(c: Copy, s: System)
    requires Disjoint(c) && Running(c, s)
    ensures Running(c, AskBus(s))
  {
    var t := s.engine.active.value;
    if t.ready != [] && (t.remaining == 0 || Buffered(t) >= MAX_OUTSTANDING_REQUESTS) {
      IssueWriteKeeps(c, s);
    } else if t.remaining > 0 && Buffered(t) < MAX_OUTSTANDING_REQUESTS {
      IssueReadKeeps(c, s);
    } else if t.ready != [] {
      IssueWriteKeeps(c, s);
    }
    hide Running, IssueWrite, IssueRead, Buffered, Numbers;
  }

  /** A transfer under way with nothing issued always has a burst to ask for. */
  lemma AlwaysAsks(c: Copy, s: System)
    requires Running(c, s) && s.engine.active.value.issued == []
    ensures Request(s.engine).request.Some?
  {
  }

  /* ---------- serving a beat ---------- */

  lemma SourceUnchanged(c: Copy, bytes: Bytes, j: nat)
    requires Disjoint(c) && Framed(c, bytes) && j < c.length
    ensures SourceAt(c, bytes, j) == SourceAt(c, c.original, j) && SourceAt(c, bytes, j).Some?
  {
    var a := c.source + 4 * j;
    assert !InDestination(c, a) && !InDestination(c, a + 1) && !InDestination(c, a + 2) && !InDestination(c, a + 3);
    assert SourceAt(c, c.original, j).Some?;
  }

  lemma ReadFlightAdvances(c: Copy, bytes: Bytes, f: Flight, issued: Issued, word: Word4)
    requires FlightOk(c, bytes, f, issued) && f.request.ReadMany? && f.beat < f.request.beats
    requires Some(word) == SourceAt(c, c.original, Position(c.source, f.request.base) + f.beat)
    ensures FlightOk(c, bytes, f.(beat := f.beat + 1, got := f.got + [word]), issued)
  {
    hide WordAt, Written;
  }

  lemma ReadFlightAddress(c: Copy, bytes: Bytes, f: Flight, issued: Issued)
    requires FlightOk(c, bytes, f, issued) && f.request.ReadMany? && f.beat < f.request.beats
    ensures Position(c.source, f.request.base) + f.beat < c.length
    ensures f.request.base + 4 * f.beat == c.source + 4 * (Position(c.source, f.request.base) + f.beat)
  {
    hide FromSource, Written;
  }

  lemma ServeRead(c: Copy, s: System, i: nat)
    requires Disjoint(c) && Running(c, s) && i < |s.flights| && s.flights[i].request.ReadMany?
    ensures Running(c, ServeBeat(s, i))
  {
    hide Running, FlightOk, Framed, Written, Overwritten, Disjoint, AllAccounted, WordAt;
    RunningFacts(c, s);
    var t, f := s.engine.active.value, s.flights[i];
    if f.beat < Beats(f.request) {
      ReadFlightAddress(c, s.bytes, f, t.issued[i]);
      SourceUnchanged(c, s.bytes, Position(c.source, f.request.base) + f.beat);
      var word := WordAt(s.bytes, f.request.base + 4 * f.beat).value;
      ReadFlightAdvances(c, s.bytes, f, t.issued[i], word);
      var r := ServeBeat(s, i);
      assert r.flights == s.flights[i := f.(beat := f.beat + 1, got := f.got + [word])];
      SameCarriers(c, s, r, t);
      StillRunning(c, s, r, t);
    }
  }

  /** The same requests carry the same words. */
  lemma SameCarriers(c: Copy, s: System, r: System, t: Transfer)
    requires AllAccounted(c, s, t) && |r.flights| == |s.flights|
    requires forall i | 0 <= i < |s.flights| :: r.flights[i].request == s.flights[i].request
    requires forall j | 0 <= j < c.length && Written(c, s.bytes, j) :: Written(c, r.bytes, j)
    ensures AllAccounted(c, r, t)
  {
    hide Written;
    forall j | 0 <= j < c.length - t.remaining ensures Accounted(c, r, t, j) {
      assert Accounted(c, s, t, j);
      if InFlightWord(c, s.flights, j) {
        var i :| 0 <= i < |s.flights| && FlightCarries(c, s.flights[i], j);
        assert FlightCarries(c, r.flights[i], j);
      }
    }
  }

  /** Writing one destination word writes that word and leaves the others. */
  lemma WriteOneWord(c: Copy, bytes: Bytes, q: nat, word: Word4)
    requires Disjoint(c) && Framed(c, bytes) && q < c.length && Some(word) == SourceAt(c, c.original, q)
    ensures var after := Overwritten(bytes, c.destination + 4 * q, word);
            Framed(c, after) && Written(c, after, q) &&
            forall j | 0 <= j < c.length && Written(c, bytes, j) :: Written(c, after, j)
  {
    var at := c.destination + 4 * q;
    var after := Overwritten(bytes, at, word);
    FramedWord(c, bytes, q);
    OverwrittenWord(bytes, at, word);
    StillFramed(c, bytes, after, q);
    hide Overwritten, Framed, SameOutside;
    forall j | 0 <= j < c.length && Written(c, bytes, j) ensures Written(c, after, j) {
      if j != q { OtherWordStays(c, bytes, q, word, j); }
    }
  }

  lemma OtherWordStays(c: Copy, bytes: Bytes, q: nat, word: Word4, j: nat)
    requires WordAt(bytes, c.destination + 4 * q).Some? && j != q
    ensures DestinationAt(c, Overwritten(bytes, c.destination + 4 * q, word), j) == DestinationAt(c, bytes, j)
  {
    OverwrittenElsewhere(bytes, c.destination + 4 * q, word, c.destination + 4 * j);
    hide Overwritten;
  }

  lemma StillFramed(c: Copy, bytes: Bytes, after: Bytes, q: nat)
    requires Framed(c, bytes) && q < c.length && SameOutside(bytes, after, c.destination + 4 * q, 4)
    ensures Framed(c, after)
  {
  }

  lemma FramedWord(c: Copy, bytes: Bytes, q: nat)
    requires Disjoint(c) && Framed(c, bytes) && q < c.length
    ensures WordAt(bytes, c.destination + 4 * q).Some?
  {
    assert DestinationAt(c, c.original, q).Some?;
  }

  lemma WriteFlightAddress(c: Copy, bytes: Bytes, f: Flight, issued: Issued)
    requires FlightOk(c, bytes, f, issued) && f.request.WriteMany? && f.beat < |f.request.words|
    ensures var q := Position(c.destination, f.request.base) + f.beat;
            q < c.length && f.request.base + 4 * f.beat == c.destination + 4 * q &&
            Some(f.request.words[f.beat]) == SourceAt(c, c.original, q)
  {
    hide WordAt, Written, Position, OnWord, SourceAt;
    PositionOnWord(c.destination, f.request.base);
  }

  lemma PositionOnWord(base: nat, addr: nat)
    requires OnWord(base, addr)
    ensures base <= addr && addr == base + 4 * Position(base, addr)
  {
  }

  lemma WriteFlightAdvances(c: Copy, bytes: Bytes, f: Flight, issued: Issued)
    requires FlightOk(c, bytes, f, issued) && f.request.WriteMany? && f.beat < |f.request.words|
    requires Written(c, bytes, Position(c.destination, f.request.base) + f.beat)
    ensures FlightOk(c, bytes, f.(beat := f.beat + 1), issued)
  {
    hide FromSource, Written;
  }

  /** A served beat changes only memory and its flight. */
  lemma StillRunning(c: Copy, s: System, r: System, t: Transfer)
    requires Running(c, s) && s.engine.active == Some(t) && r.engine == s.engine
    requires r.readBursts == s.readBursts && r.writeBursts == s.writeBursts
    requires Framed(c, r.bytes) && FlightsOk(c, r.bytes, r.flights, t.issued) && AllAccounted(c, r, t)
    ensures Running(c, r)
  {
    hide Framed, FlightsOk, AllAccounted, Numbers, Counted, ReadyAll;
  }

  lemma ServeWrite(c: Copy, s: System, i: nat)
    requires Disjoint(c) && Running(c, s) && i < |s.flights| && s.flights[i].request.WriteMany?
    ensures Running(c, ServeBeat(s, i))
  {
    hide Running, FlightOk, Framed, Written, Overwritten, Disjoint, AllAccounted;
    RunningFacts(c, s);
    var t, f := s.engine.active.value, s.flights[i];
    if f.beat < Beats(f.request) {
      WriteFlightAddress(c, s.bytes, f, t.issued[i]);
      WriteOneWord(c, s.bytes, Position(c.destination, f.request.base) + f.beat, f.request.words[f.beat]);
      var r := ServeBeat(s, i);
      WrittenFlights(c, s, r, t, i);
      SameCarriers(c, s, r, t);
      StillRunning(c, s, r, t);
    }
  }

  lemma RunningFacts(c: Copy, s: System)
    requires Running(c, s)
    ensures s.engine.active.Some? && Framed(c, s.bytes)
    ensures FlightsOk(c, s.bytes, s.flights, s.engine.active.value.issued) && AllAccounted(c, s, s.engine.active.value)
  {
  }

  lemma WrittenFlights(c: Copy, s: System, r: System, t: Transfer, i: nat)
    requires FlightsOk(c, s.bytes, s.flights, t.issued) && i < |s.flights| && s.flights[i].request.WriteMany?
    requires s.flights[i].beat < |s.flights[i].request.words|
    requires r.flights == s.flights[i := s.flights[i].(beat := s.flights[i].beat + 1)]
    requires Written(c, r.bytes, Position(c.destination, s.flights[i].request.base) + s.flights[i].beat)
    requires forall j | 0 <= j < c.length && Written(c, s.bytes, j) :: Written(c, r.bytes, j)
    ensures FlightsOk(c, r.bytes, r.flights, t.issued)
  {
    hide FlightOk, Written, Position;
    StaysWritten(c, s.bytes, r.bytes, s.flights[i], t.issued[i]);
    WriteFlightAdvances(c, r.bytes, s.flights[i], t.issued[i]);
    forall k | 0 <= k < |r.flights| ensures FlightOk(c, r.bytes, r.flights[k], t.issued[k]) {
      if k != i { StaysWritten(c, s.bytes, r.bytes, s.flights[k], t.issued[k]); }
    }
  }

  lemma StaysWritten(c: Copy, bytes: Bytes, after: Bytes, f: Flight, issued: Issued)
    requires FlightOk(c, bytes, f, issued)
    requires forall j | 0 <= j < c.length && Written(c, bytes, j) :: Written(c, after, j)
    ensures FlightOk(c, after, f, issued)
  {
    hide Written;
  }

  /* ---------- answering ---------- */

  /** Leaving out the oldest flight loses only the words it carried. */
  lemma RestCarries(c: Copy, flights: seq<Flight>, j: nat)
    requires flights != [] && InFlightWord(c, flights, j) && !FlightCarries(c, flights[0], j)
    ensures InFlightWord(c, flights[1..], j)
  {
    var i :| 0 <= i < |flights| && FlightCarries(c, flights[i], j);
    assert flights[1..][i - 1] == flights[i];
  }

  lemma ReadyStays(c: Copy, ready: seq<WriteBurst>, more: seq<WriteBurst>, j: nat)
    requires ready <= more && InReady(c, ready, j)
    ensures InReady(c, more, j)
  {
    var i :| 0 <= i < |ready| && c.destination <= ready[i].destination &&
             Within(Position(c.destination, ready[i].destination), |ready[i].words|, j);
    assert more[i] == ready[i];
  }

  lemma RestFlightsOk(c: Copy, bytes: Bytes, flights: seq<Flight>, issued: seq<Issued>)
    requires FlightsOk(c, bytes, flights, issued) && flights != []
    ensures FlightsOk(c, bytes, flights[1..], issued[1..])
  {
    hide FlightOk;
  }

  lemma AnswerRead(c: Copy, s: System)
    requires Disjoint(c) && Running(c, s) && s.flights != [] && s.flights[0].request.ReadMany?
    requires s.flights[0].beat == Beats(s.flights[0].request)
    ensures Running(c, AnswerOldest(s))
  {
    var t, f, r := s.engine.active.value, s.flights[0], AnswerOldest(s);
    var first := t.issued[0];
    assert FlightOk(c, s.bytes, f, first);
    var burst := WriteBurst(first.destination, f.got);
    var u := t.(issued := t.issued[1..], ready := t.ready + [burst]);
    assert r.engine.active == Some(u) && r.flights == s.flights[1..];
    ReadyAppend(t.ready, burst);
    RestFlightsOk(c, s.bytes, s.flights, t.issued);
    assert ReadyOk(c, burst);
    hide FlightOk, Framed, Written, ReadyOk, FromSource;
    forall j | 0 <= j < c.length - u.remaining ensures Accounted(c, r, u, j) {
      assert Accounted(c, s, t, j);
      if FlightCarries(c, f, j) {
        assert u.ready[|t.ready|] == burst;
      } else if InReady(c, t.ready, j) {
        ReadyStays(c, t.ready, u.ready, j);
      } else if InFlightWord(c, s.flights, j) {
        RestCarries(c, s.flights, j);
      }
    }
  }

  lemma AnswerWrite(c: Copy, s: System)
    requires Disjoint(c) && Running(c, s) && s.flights != [] && s.flights[0].request.WriteMany?
    requires s.flights[0].beat == Beats(s.flights[0].request)
    ensures Ok(c, AnswerOldest(s)) || c.length == 0
  {
    var t, f, r := s.engine.active.value, s.flights[0], AnswerOldest(s);
    assert FlightOk(c, s.bytes, f, t.issued[0]);
    var u := t.(issued := t.issued[1..]);
    RestFlightsOk(c, s.bytes, s.flights, t.issued);
    assert r.flights == s.flights[1..] && r.bytes == s.bytes;
    hide Framed, Written, ReadyOk, FromSource;
    forall j | 0 <= j < c.length - u.remaining ensures Accounted(c, r, u, j) {
      assert Accounted(c, s, t, j);
      if !FlightCarries(c, f, j) && InFlightWord(c, s.flights, j) { RestCarries(c, s.flights, j); }
    }
    hide FlightOk, FlightCarries;
    if Complete(u) {
      forall j | 0 <= j < c.length ensures Written(c, r.bytes, j) { assert Accounted(c, r, u, j); }
    }
  }

  /* ---------- every run ---------- */

  lemma NextKeeps(c: Copy, s: System, a: Action)
    requires Ok(c, s)
    ensures Ok(c, Next(s, a))
  {
    if Running(c, s) {
      match a {
        case Ask => AskKeeps(c, s);
        case Serve(i) =>
          if i < |s.flights| {
            assert FlightOk(c, s.bytes, s.flights[i], s.engine.active.value.issued[i]);
            if s.flights[i].request.ReadMany? { ServeRead(c, s, i); } else { ServeWrite(c, s, i); }
          }
        case Answer =>
          if s.flights != [] && s.flights[0].beat >= Beats(s.flights[0].request) {
            assert FlightOk(c, s.bytes, s.flights[0], s.engine.active.value.issued[0]);
            if s.flights[0].request.ReadMany? { AnswerRead(c, s); } else { AnswerWrite(c, s); }
          }
      }
    }
    hide Running, Copied, AskBus, ServeBeat, OnResponse, FlightOk;
  }

  function Run(s: System, actions: seq<Action>): System
    decreases |actions|
  {
    if actions == [] then s else Run(Next(s, actions[0]), actions[1..])
  }

  lemma {:induction false} RunKeeps(c: Copy, s: System, actions: seq<Action>)
    requires Ok(c, s)
    ensures Ok(c, Run(s, actions))
    decreases |actions|
  {
    hide Ok, Next;
    if actions != [] {
      NextKeeps(c, s, actions[0]);
      RunKeeps(c, Next(s, actions[0]), actions[1..]);
    }
  }

  /** Over every schedule of the bus below, a transfer that reports done has copied every
      word of the source, changed no other byte, taken ceil(n / 8) read and as many write
      bursts, and never reports an error. */
  lemma EveryScheduleCopies(c: Copy, actions: seq<Action>)
    requires Disjoint(c) && c.length > 0
    ensures var s := Run(StartSystem(c), actions);
            !s.engine.error &&
            (s.engine.done ==>
               (forall j | 0 <= j < c.length :: DestinationAt(c, s.bytes, j) == SourceAt(c, c.original, j)) &&
               (forall a | a in s.bytes && !InDestination(c, a) :: a in c.original && s.bytes[a] == c.original[a]) &&
               s.bytes.Keys == c.original.Keys && s.engine.transferred == c.length &&
               s.readBursts == Bursts(c.length) && s.writeBursts == Bursts(c.length))
  {
    StartsOk(c);
    RunKeeps(c, StartSystem(c), actions);
    var s := Run(StartSystem(c), actions);
    if s.engine.done {
      forall j | 0 <= j < c.length
        ensures DestinationAt(c, s.bytes, j) == SourceAt(c, c.original, j)
      {
        assert Written(c, s.bytes, j);
      }
    }
    hide Run, WordAt;
  }

  /** Throughout, no word is lost or counted twice, at most four read bursts are held, and
      an engine with nothing issued asks for a burst. */
  lemma EveryScheduleConserves(c: Copy, actions: seq<Action>)
    requires Disjoint(c) && c.length > 0
    ensures var e := Run(StartSystem(c), actions).engine;
            if e.active.Some? then
              var t := e.active.value;
              c.length == t.remaining + BeatsIssued(t.issued) + WordsReady(t.ready) + e.transferred &&
              Buffered(t) <= MAX_OUTSTANDING_REQUESTS && (t.issued == [] ==> Request(e).request.Some?)
            else e.done
  {
    StartsOk(c);
    RunKeeps(c, StartSystem(c), actions);
    var s := Run(StartSystem(c), actions);
    if s.engine.active.Some? && s.engine.active.value.issued == [] { AlwaysAsks(c, s); }
    hide Run;
  }

  /* ---------- the engine updated in place ---------- */

  class DmaController {
    var source: nat
    var destination: nat
    var lengthWords: nat
    var transferredWords: nat
    var done: bool
    var error: bool
    var active: Option<Transfer>

    ghost function State(): Engine
      reads this
    {
      Engine(source, destination, lengthWords, transferredWords, done, error, active)
    }

    constructor ()
      ensures State() == Engine(0, 0, 0, 0, false, false, None)
    {
      source, destination, lengthWords, transferredWords := 0, 0, 0, 0;
      done, error, active := false, false, None;
    }

    method StartTransfer()
      modifies this
      ensures State() == Start(old(State()))
    {
      if active.Some? { return; }
      done, error, transferredWords := false, false, 0;
      if lengthWords == 0 {
        error := true;
        return;
      }
      active := Some(Transfer(source, destination, lengthWords, [], []));
    }

    /** Count the read bursts issued and not yet answered. */
    method CountReads(issued: seq<Issued>) returns (count: nat)
      ensures count == ReadsIn(issued)
    {
      count := 0;
      var k := |issued|;
      while k > 0
        invariant 0 <= k <= |issued| && count == ReadsIn(issued[k..])
      {
        k := k - 1;
        assert issued[k..][1..] == issued[k + 1..];
        if issued[k].ReadIssued? { count := count + 1; }
      }
      assert issued[0..] == issued;
    }

    /** Put the oldest waiting burst on the bus. */
    method PopWrite(t: Transfer) returns (request: Option<MasterRequest>)
      requires active == Some(t) && t.ready != []
      modifies this`active
      ensures Asked(State(), request) == IssueWrite(old(State()), t)
    {
      var write := t.ready[0];
      active := Some(t.(ready := t.ready[1..], issued := t.issued + [WriteIssued(|write.words|)]));
      request := Some(WriteMany(write.destination, write.words));
    }

    method NextRequest() returns (request: Option<MasterRequest>)
      modifies this`active
      ensures Asked(State(), request) == Request(old(State()))
    {
      if active.None? { return None; }
      var t := active.value;
      var inFlight := CountReads(t.issued);
      var buffered := |t.ready| + inFlight;
      if t.ready != [] && (t.remaining == 0 || buffered >= MAX_OUTSTANDING_REQUESTS) {
        request := PopWrite(t);
        return;
      }
      if t.remaining > 0 && buffered < MAX_OUTSTANDING_REQUESTS {
        var beats := BurstWords(t.remaining);
        active := Some(t.(nextSource := t.nextSource + 4 * beats, nextDestination := t.nextDestination + 4 * beats,
                          remaining := t.remaining - beats, issued := t.issued + [ReadIssued(t.nextDestination, beats)]));
        return Some(ReadMany(t.nextSource, beats));
      }
      // A burst still waiting would have been issued above, so there is nothing to pop.
      request := None;
    }

    method Respond(response: Outcome<MasterResponse>)
      modifies this
      ensures State() == OnResponse(old(State()), response)
    {
      if active.None? { return; }
      var t := active.value;
      active := None;
      if t.issued == [] {
        error := true;
        return;
      }
      var first := t.issued[0];
      t := t.(issued := t.issued[1..]);
      if first.ReadIssued? && response.Done? && response.value.ReadDone? && |response.value.words| == first.beats {
        t := t.(ready := t.ready + [WriteBurst(first.destination, response.value.words)]);
      } else if first.WriteIssued? && response.Done? && response.value.WriteDone? && response.value.beats == first.beats {
        transferredWords := transferredWords + first.beats;
      } else {
        error := true;
        return;
      }
      if Complete(t) { done := true; } else { active := Some(t); }
    }
  }
}
