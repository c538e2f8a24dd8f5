/** Round-robin arbitration among bus masters, with a window of outstanding requests for
    each and responses in the order its requests were taken. */
module Arbiter {
  import opened Wrappers
  import opened BusFabric
  import opened Dma

  /** A request taken from a master. Its serial number, its place among all requests ever
      taken, is there to speak about order. */
  datatype Ticket = Ticket(serial: nat, master: nat, request: MasterRequest)

  datatype RequestId = AccessId(id: nat) | BurstId(id: nat)

  type Completion = Outcome<MasterResponse>

  datatype MasterFlight = MasterFlight(ticket: Ticket, id: RequestId, completion: Option<Completion>)

  datatype Delivery = Delivery(ticket: Ticket, response: Completion)

  datatype State = State(
    next: nat, pending: Option<Ticket>, inFlight: seq<MasterFlight>, cpuReserved: bool, serials: nat)

  datatype Submission = Granted(id: nat) | SubmitBusy | Denied(error: Error)

  /** What one tick meets: the lower bus's answers to accesses and bursts, what each master
      would ask for, and how the lower bus receives a submission. */
  datatype Input = Input(
    accesses: nat -> Option<Outcome<AccessResponse>>, bursts: nat -> Option<Outcome<BurstResponse>>,
    offers: nat -> Option<MasterRequest>, submission: Submission)

  /* ---------- answers ---------- */

  function AddressOf(r: MasterRequest): nat {
    match r
    case LoadOne(addr) => addr
    case StoreOne(addr, _) => addr
    case ReadMany(base, _) => base
    case WriteMany(base, _) => base
  }

  function FromAccess(r: MasterRequest, answer: Outcome<AccessResponse>): Completion {
    match answer
    case Fault(e) => Fault(e)
    case Done(BytesRead(data, width)) =>
      if r.LoadOne? && width == 4 then Done(LoadedOne(data)) else Fault(Mismatched(AddressOf(r)))
    case Done(WriteComplete) => if r.StoreOne? then Done(StoredOne) else Fault(Mismatched(AddressOf(r)))
  }

  function FromBurst(r: MasterRequest, answer: Outcome<BurstResponse>): Completion {
    match answer
    case Fault(e) => Fault(e)
    case Done(WordsRead(words)) => if r.ReadMany? then Done(ReadDone(words)) else Fault(Mismatched(AddressOf(r)))
    case Done(WordsWritten(beats)) => if r.WriteMany? then Done(WriteDone(beats)) else Fault(Mismatched(AddressOf(r)))
  }

  /** The answer a request in flight has below, if any. */
  function AnswerBelow(x: MasterFlight, input: Input): Option<Completion> {
    match x.id
    case AccessId(id) =>
      var answer := input.accesses(id);
      if answer.None? then None else Some(FromAccess(x.ticket.request, answer.value))
    case BurstId(id) =>
      var answer := input.bursts(id);
      if answer.None? then None else Some(FromBurst(x.ticket.request, answer.value))
  }

  function IdFor(r: MasterRequest, id: nat): RequestId {
    if r.LoadOne? || r.StoreOne? then AccessId(id) else BurstId(id)
  }

  /* ---------- polling ---------- */

  function Polled(x: MasterFlight, input: Input): MasterFlight {
    if x.completion.Some? then x else x.(completion := AnswerBelow(x, input))
  }

  function PollAll(flights: seq<MasterFlight>, input: Input): (r: seq<MasterFlight>)
    ensures |r| == |flights| && forall i | 0 <= i < |r| :: r[i] == Polled(flights[i], input)
  {
    if flights == [] then [] else [Polled(flights[0], input)] + PollAll(flights[1..], input)
  }

  /** No request before `index` belongs to this master. */
  predicate Oldest(flights: seq<MasterFlight>, index: nat, master: nat)
    requires index <= |flights|
  {
    forall k | 0 <= k < index :: flights[k].ticket.master != master
  }

  /** Completed, and its master's oldest. */
  predicate Deliverable(flights: seq<MasterFlight>, index: nat)
    requires index < |flights|
  {
    flights[index].completion.Some? && Oldest(flights, index, flights[index].ticket.master)
  }

  datatype Delivered = Delivered(rest: seq<MasterFlight>, deliveries: seq<Delivery>)

  /** The scan that removes and delivers completions, from `index` on. */
  function Deliver(flights: seq<MasterFlight>, index: nat): Delivered
    requires index <= |flights|
    decreases |flights| - index
  {
    if index == |flights| then Delivered(flights, [])
    else if !Deliverable(flights, index) then
      Deliver(flights, index + 1)
    else
      var rest := Deliver(flights[..index] + flights[index + 1..], index);
      Delivered(rest.rest, [Delivery(flights[index].ticket, flights[index].completion.value)] + rest.deliveries)
  }

  /* ---------- selection ---------- */

  function CountFor(flights: seq<MasterFlight>, master: nat): nat {
    if flights == [] then 0 else (if flights[0].ticket.master == master then 1 else 0) + CountFor(flights[1..], master)
  }

  /** `outstanding_request_count_for_master`. */
  function Outstanding(s: State, master: nat): nat {
    (if s.pending.Some? && s.pending.value.master == master then 1 else 0) + CountFor(s.inFlight, master)
  }

  function Window(windows: seq<nat>, master: nat): nat
    requires master < |windows|
  {
    if windows[master] < 1 then 1 else windows[master]
  }

  /** The master `offset` places on from `next`. */
  function Around(next: nat, offset: nat, count: nat): (index: nat)
    requires next < count && offset < count
    ensures index < count
  {
    if next + offset < count then next + offset else next + offset - count
  }

  predicate Eligible(s: State, windows: seq<nat>, offers: nat -> Option<MasterRequest>, master: nat)
    requires master < |windows|
  {
    Outstanding(s, master) < Window(windows, master) && offers(master).Some?
  }

  /** The first eligible master, from `offset` places on. */
  function Select(s: State, windows: seq<nat>, offers: nat -> Option<MasterRequest>, offset: nat): (r: Option<nat>)
    requires s.next < |windows| && offset <= |windows|
    ensures r.Some? ==> r.value < |windows| && Eligible(s, windows, offers, r.value)
    decreases |windows| - offset
  {
    if offset == |windows| then None
    else
      var master := Around(s.next, offset, |windows|);
      if Eligible(s, windows, offers, master) then Some(master) else Select(s, windows, offers, offset + 1)
  }

  /* ---------- a tick ---------- */

  datatype Ticked = Ticked(state: State, deliveries: seq<Delivery>)

  /** `try_submit_pending_request`. A refusal is answered at once. */
  function Submit(s: State, submission: Submission): Ticked
    requires s.pending.Some?
  {
    match submission
    case Granted(id) =>
      var ticket := s.pending.value;
      Ticked(s.(pending := None, inFlight := s.inFlight + [MasterFlight(ticket, IdFor(ticket.request, id), None)]), [])
    case SubmitBusy => Ticked(s, [])
    case Denied(e) => Ticked(s.(pending := None), [Delivery(s.pending.value, Fault(e))])
  }

  function AfterPoll(s: State, input: Input): (t: Ticked)
    ensures t.state.next == s.next && t.state.serials == s.serials
  {
    var d := Deliver(PollAll(s.inFlight, input), 0);
    Ticked(s.(inFlight := d.rest, cpuReserved := false), d.deliveries)
  }

  function Choose(s: State, windows: seq<nat>, offers: nat -> Option<MasterRequest>): (c: State)
    requires s.next < |windows| || |windows| == 0
    ensures c.next < |windows| || |windows| == 0
  {
    if |windows| == 0 || s.pending.Some? then s
    else
      var chosen := Select(s, windows, offers, 0);
      if chosen.None? then s
      else s.(next := Around(chosen.value, if |windows| > 1 then 1 else 0, |windows|), serials := s.serials + 1,
              pending := Some(Ticket(s.serials, chosen.value, offers(chosen.value).value)))
  }

  /** The state in which a submission is tried, if a request is then waiting. */
  function Offered(s: State, windows: seq<nat>, input: Input): (c: State)
    requires s.next < |windows| || |windows| == 0
    ensures c.next < |windows| || |windows| == 0
  {
    Choose(AfterPoll(s, input).state, windows, input.offers)
  }

  function Arbitrate(s: State, windows: seq<nat>, input: Input): (t: Ticked)
    requires s.next < |windows| || |windows| == 0
    ensures t.state.next < |windows| || |windows| == 0
  {
    var polled, chosen := AfterPoll(s, input), Offered(s, windows, input);
    if chosen.pending.None? then Ticked(chosen, polled.deliveries)
    else
      var submitted := Submit(chosen.(cpuReserved := true), input.submission);
      Ticked(submitted.state, polled.deliveries + submitted.deliveries)
  }

  /* ---------- order and windows ---------- */

  function Of(s: seq<Ticket>, master: nat): seq<Ticket> {
    if s == [] then [] else (if s[0].master == master then [s[0]] else []) + Of(s[1..], master)
  }

  function Requests(flights: seq<MasterFlight>): (r: seq<Ticket>)
    ensures |r| == |flights| && forall i | 0 <= i < |r| :: r[i] == flights[i].ticket
  {
    if flights == [] then [] else [flights[0].ticket] + Requests(flights[1..])
  }

  function Answered(deliveries: seq<Delivery>): (r: seq<Ticket>)
    ensures |r| == |deliveries| && forall i | 0 <= i < |r| :: r[i] == deliveries[i].ticket
  {
    if deliveries == [] then [] else [deliveries[0].ticket] + Answered(deliveries[1..])
  }

  function Waiting(s: State): seq<Ticket> { if s.pending.Some? then [s.pending.value] else [] }

  /** Everything taken, everything delivered. */
  datatype History = History(state: State, taken: seq<Ticket>, deliveries: seq<Delivery>)

  /** The requests of a master not yet answered, oldest first. */
  function Open(s: State, m: nat): seq<Ticket> { Of(Requests(s.inFlight), m) + Of(Waiting(s), m) }

  /** A master's requests so far are those answered, then those in flight, then the one not
      yet submitted, in the order they were taken. */
  predicate InOrderFor(h: History, m: nat) { Of(h.taken, m) == Of(Answered(h.deliveries), m) + Open(h.state, m) }

  ghost predicate InOrder(h: History) {
    forall m: nat :: InOrderFor(h, m)
  }

  predicate Numbered(h: History) {
    |h.taken| == h.state.serials && forall i | 0 <= i < |h.taken| :: h.taken[i].serial == i
  }

  predicate WithinWindows(s: State, windows: seq<nat>) {
    forall m | 0 <= m < |windows| :: Outstanding(s, m) <= Window(windows, m)
  }

  /** The request taken between two states, if any. */
  function Fresh(before: State, after: State): seq<Ticket> { if after.serials > before.serials then Waiting(after) else [] }

  /** What a tick adds to the history. */
  function Recorded(h: History, windows: seq<nat>, input: Input): (r: History)
    requires h.state.next < |windows| || |windows| == 0
    ensures r.state.next < |windows| || |windows| == 0
  {
    var t, c := Arbitrate(h.state, windows, input), Offered(h.state, windows, input);
    History(t.state, h.taken + Fresh(h.state, c), h.deliveries + t.deliveries)
  }

  lemma {:induction false} OfConcat(s: seq<Ticket>, t: seq<Ticket>, m: nat)
    ensures Of(s + t, m) == Of(s, m) + Of(t, m)
  {
    if s == [] {
      assert s + t == t;
      assert [] + Of(t, m) == Of(t, m);
    } else {
      TailOfConcat(s, t);
      OfConcat(s[1..], t, m);
      ConcatAssociates(if s[0].master == m then [s[0]] else [], Of(s[1..], m), Of(t, m));
    }
  }

  lemma {:induction false} OfNone(s: seq<Ticket>, m: nat)
    requires forall i | 0 <= i < |s| :: s[i].master != m
    ensures Of(s, m) == []
  {
    if s != [] { OfNone(s[1..], m); }
  }

  lemma TakenOut<T>(s: seq<T>, index: nat)
    requires index < |s|
    ensures s == s[..index] + ([s[index]] + s[index + 1..])
  {
  }

  lemma RequestsConcat(a: seq<MasterFlight>, b: seq<MasterFlight>)
    ensures Requests(a + b) == Requests(a) + Requests(b)
  {
    hide Requests;
  }

  lemma RequestsOfPart(flights: seq<MasterFlight>, from: nat, to: nat)
    requires from <= to <= |flights|
    ensures Requests(flights[from..to]) == Requests(flights)[from..to]
  {
    hide Requests;
  }

  lemma RequestsWithout(flights: seq<MasterFlight>, index: nat)
    requires index < |flights|
    ensures Requests(flights[..index] + flights[index + 1..]) == Requests(flights)[..index] + Requests(flights)[index + 1..]
  {
    hide Requests;
    RequestsConcat(flights[..index], flights[index + 1..]);
    RequestsOfPart(flights, 0, index);
    RequestsOfPart(flights, index + 1, |flights|);
  }

  /** Taking out a master's oldest request takes it off the front of that master's list. */
  lemma RemoveOldest(flights: seq<MasterFlight>, index: nat, m: nat)
    requires index < |flights| && Oldest(flights, index, flights[index].ticket.master)
    ensures Of(Requests(flights), m)
         == Of([flights[index].ticket], m) + Of(Requests(flights[..index] + flights[index + 1..]), m)
  {
    var all, x := Requests(flights), flights[index].ticket;
    var front, back := all[..index], all[index + 1..];
    TakenOut(all, index);
    RequestsWithout(flights, index);
    OfConcat(front, [x] + back, m);
    OfConcat([x], back, m);
    OfConcat(front, back, m);
    if x.master == m {
      OfNone(front, m);
      assert [] + (Of([x], m) + Of(back, m)) == Of([x], m) + ([] + Of(back, m));
    } else {
      assert Of([x], m) == [];
      assert [] + Of(back, m) == Of(back, m);
      assert [] + (Of(front, m) + Of(back, m)) == Of(front, m) + Of(back, m);
    }
  }

  lemma DeliverAt(flights: seq<MasterFlight>, index: nat)
    requires index <= |flights|
    ensures index == |flights| ==> Deliver(flights, index) == Delivered(flights, [])
    ensures index < |flights| && !Deliverable(flights, index) ==> Deliver(flights, index) == Deliver(flights, index + 1)
    ensures index < |flights| && Deliverable(flights, index) ==>
              var d := Deliver(flights[..index] + flights[index + 1..], index);
              Deliver(flights, index)
              == Delivered(d.rest, [Delivery(flights[index].ticket, flights[index].completion.value)] + d.deliveries)
  {
  }

  lemma NothingAnswered(m: nat)
    ensures Answered([]) == [] && Of([], m) == []
  {
  }

  lemma AnsweredFirst(first: Delivery, more: seq<Delivery>)
    ensures Answered([first] + more) == [first.ticket] + Answered(more)
  {
  }

  /** Delivery moves requests from each master's flights to its answers, in order. */
  lemma {:induction false} DeliverInOrder(flights: seq<MasterFlight>, index: nat, m: nat)
    requires index <= |flights|
    ensures var d := Deliver(flights, index);
            Of(Requests(flights), m) == Of(Answered(d.deliveries), m) + Of(Requests(d.rest), m)
    decreases |flights| - index
  {
    hide Deliver, Of, Answered, Requests;
    DeliverAt(flights, index);
    if index == |flights| {
      NothingAnswered(m);
      assert [] + Of(Requests(flights), m) == Of(Requests(flights), m);
    } else if !Deliverable(flights, index) {
      DeliverInOrder(flights, index + 1, m);
    } else {
      var rest, x := flights[..index] + flights[index + 1..], flights[index].ticket;
      var d := Deliver(rest, index);
      DeliverInOrder(rest, index, m);
      RemoveOldest(flights, index, m);
      AnsweredFirst(Delivery(x, flights[index].completion.value), d.deliveries);
      OfConcat([x], Answered(d.deliveries), m);
      ConcatAssociates(Of([x], m), Of(Answered(d.deliveries), m), Of(Requests(d.rest), m));
    }
  }

  /* ---------- nothing deliverable is left ---------- */

  predicate Blocked(flights: seq<MasterFlight>, index: nat)
    requires index < |flights|
  {
    !Deliverable(flights, index)
  }

  predicate AllBlocked(flights: seq<MasterFlight>, count: nat)
    requires count <= |flights|
  {
    forall k | 0 <= k < count :: Blocked(flights, k)
  }

  lemma BlockedByPrefix(a: seq<MasterFlight>, b: seq<MasterFlight>, index: nat)
    requires index < |a| && index < |b| && a[..index + 1] == b[..index + 1]
    ensures Blocked(a, index) == Blocked(b, index)
  {
    assert forall k | 0 <= k <= index :: a[k] == a[..index + 1][k] && b[k] == b[..index + 1][k];
  }

  /** The scan leaves no completed request that is its master's oldest. */
  lemma {:induction false} NothingReadyStays(flights: seq<MasterFlight>, index: nat)
    requires index <= |flights| && AllBlocked(flights, index)
    ensures var rest := Deliver(flights, index).rest; AllBlocked(rest, |rest|)
    decreases |flights| - index
  {
    if index == |flights| {
    } else if !Deliverable(flights, index) {
      assert Blocked(flights, index);
      NothingReadyStays(flights, index + 1);
    } else {
      var rest := flights[..index] + flights[index + 1..];
      forall k | 0 <= k < index ensures Blocked(rest, k) {
        assert rest[..k + 1] == flights[..k + 1];
        BlockedByPrefix(flights, rest, k);
      }
      NothingReadyStays(rest, index);
    }
  }

  /** After a tick every master's oldest request in flight is still unanswered below. */
  lemma AnswersAreNotHeldBack(s: State, input: Input)
    ensures var rest := AfterPoll(s, input).state.inFlight;
            AllBlocked(rest, |rest|)
  {
    NothingReadyStays(PollAll(s.inFlight, input), 0);
  }

  /* ---------- windows ---------- */

  lemma {:induction false} CountIsLength(flights: seq<MasterFlight>, m: nat)
    ensures CountFor(flights, m) == |Of(Requests(flights), m)|
  {
    if flights != [] {
      assert Requests(flights)[1..] == Requests(flights[1..]);
      CountIsLength(flights[1..], m);
    }
  }

  lemma OutstandingIsOpen(s: State, m: nat)
    ensures Outstanding(s, m) == |Open(s, m)|
  {
    CountIsLength(s.inFlight, m);
    if s.pending.Some? { assert Of(Waiting(s), m) == (if s.pending.value.master == m then [s.pending.value] else []); }
  }

  /* ---------- one tick ---------- */

  ghost predicate Orderly(h: History, windows: seq<nat>) {
    InOrder(h) && Numbered(h) && WithinWindows(h.state, windows) && (h.state.next < |windows| || |windows| == 0)
  }

  /** Polling answers the front of each master's open requests. */
  lemma PollOpens(s: State, input: Input, m: nat)
    ensures var t := AfterPoll(s, input); Open(s, m) == Of(Answered(t.deliveries), m) + Open(t.state, m)
  {
    var polled := PollAll(s.inFlight, input);
    assert Requests(polled) == Requests(s.inFlight);
    DeliverInOrder(polled, 0, m);
    var d := Deliver(polled, 0);
    ConcatAssociates(Of(Answered(d.deliveries), m), Of(Requests(d.rest), m), Of(Waiting(s), m));
  }

  /** Choosing puts one more request of the chosen master behind its open ones. */
  lemma ChooseOpens(s: State, windows: seq<nat>, offers: nat -> Option<MasterRequest>, m: nat)
    requires s.next < |windows| || |windows| == 0
    ensures var c := Choose(s, windows, offers);
            Open(c, m) == Open(s, m) + Of(Fresh(s, c), m)
  {
    assert Open(s, m) + [] == Open(s, m);
    assert s.pending.None? ==> Of(Requests(s.inFlight), m) + [] == Of(Requests(s.inFlight), m);
  }

  /** A request granted or put off stays last among its master's open requests. */
  lemma SubmitOpens(s: State, submission: Submission, m: nat)
    requires s.pending.Some? && !submission.Denied?
    ensures var t := Submit(s, submission); Open(t.state, m) == Open(s, m) && t.deliveries == []
  {
    if submission.Granted? {
      var ticket := s.pending.value;
      var flight := MasterFlight(ticket, IdFor(ticket.request, submission.id), None);
      assert Requests(s.inFlight + [flight]) == Requests(s.inFlight) + [ticket];
      OfConcat(Requests(s.inFlight), [ticket], m);
      assert Open(s, m) + [] == Open(s, m);
    }
  }

  lemma AnsweredConcat(a: seq<Delivery>, b: seq<Delivery>)
    ensures Answered(a + b) == Answered(a) + Answered(b)
  {
  }

  /** A refused submission whose master has older requests in flight: it is answered first. */
  predicate JumpsQueue(s: State, windows: seq<nat>, input: Input)
    requires s.next < |windows| || |windows| == 0
  {
    var c := Offered(s, windows, input);
    c.pending.Some? && input.submission.Denied? && Of(Requests(c.inFlight), c.pending.value.master) != []
  }

  predicate Rising(s: seq<Ticket>) { forall i, k | 0 <= i < k < |s| :: s[i].serial < s[k].serial }

  lemma {:induction false} OfMembers(s: seq<Ticket>, m: nat)
    ensures forall x | x in Of(s, m) :: x in s && x.master == m
  {
    if s != [] { OfMembers(s[1..], m); }
  }

  lemma {:induction false} OfRises(s: seq<Ticket>, m: nat)
    requires Rising(s)
    ensures Rising(Of(s, m))
  {
    if s != [] {
      OfRises(s[1..], m);
      OfMembers(s[1..], m);
      forall x | x in s[1..] ensures s[0].serial < x.serial {
        var k :| 0 <= k < |s[1..]| && s[1..][k] == x;
        assert s[k + 1] == x;
      }
    }
  }

  /** The requests taken by a tick, up to the submission. */
  lemma OfferedInOrder(h: History, windows: seq<nat>, input: Input, m: nat)
    requires h.state.next < |windows| || |windows| == 0
    requires InOrderFor(h, m)
    ensures var r, c, polled := Recorded(h, windows, input), Offered(h.state, windows, input), AfterPoll(h.state, input);
            Of(r.taken, m) == Of(Answered(h.deliveries + polled.deliveries), m) + Open(c, m)
  {
    var c, polled := Offered(h.state, windows, input), AfterPoll(h.state, input);
    var more := Fresh(h.state, c);
    PollOpens(h.state, input, m);
    ChooseOpens(polled.state, windows, input.offers, m);
    OfConcat(h.taken, more, m);
    AnsweredConcat(h.deliveries, polled.deliveries);
    OfConcat(Answered(h.deliveries), Answered(polled.deliveries), m);
    ThreeWays(Of(Answered(h.deliveries), m), Of(Answered(polled.deliveries), m), Open(polled.state, m), Of(more, m));
  }

  lemma ThreeWays<T>(a: seq<T>, b: seq<T>, c: seq<T>, d: seq<T>)
    ensures (a + (b + c)) + d == (a + b) + (c + d)
  {
  }

  /** A refusal puts its request behind the answers, ahead of all its master has in flight. */
  lemma DeniedAnswers(answered: seq<Delivery>, s: State, e: Error, m: nat)
    requires s.pending.Some?
    ensures var t, p := Submit(s, Denied(e)), s.pending.value;
            var after := Of(Answered(answered + t.deliveries), m) + Open(t.state, m);
            && after == Of(Answered(answered), m) + Of([p], m) + Of(Requests(s.inFlight), m)
            && (p.master != m || Of(Requests(s.inFlight), m) == [] ==>
                after == Of(Answered(answered), m) + Open(s, m))
  {
    var t, p := Submit(s, Denied(e)), s.pending.value;
    AnsweredConcat(answered, t.deliveries);
    assert Answered(t.deliveries) == [p];
    OfConcat(Answered(answered), [p], m);
    var flights := Of(Requests(s.inFlight), m);
    assert flights + [] == flights;
    ConcatAssociates(Of(Answered(answered), m), Of([p], m), flights);
    assert p.master != m ==> [] + flights == flights;
    assert flights == [] ==> [] + Of([p], m) == Of([p], m);
    assert flights == [] ==> Of([p], m) + [] == Of([p], m);
  }

  /** A tick is the polling, the choice, and then the submission of what is waiting. */
  lemma RecordedParts(h: History, windows: seq<nat>, input: Input)
    requires h.state.next < |windows| || |windows| == 0
    ensures var r, c, polled := Recorded(h, windows, input), Offered(h.state, windows, input), AfterPoll(h.state, input);
            && (c.pending.None? ==> r.state == c && r.deliveries == h.deliveries + polled.deliveries)
            && (c.pending.Some? ==> var t := Submit(c.(cpuReserved := true), input.submission);
                r.state == t.state && r.deliveries == (h.deliveries + polled.deliveries) + t.deliveries)
  {
    hide AfterPoll, Choose;
    var c, polled := Offered(h.state, windows, input), AfterPoll(h.state, input);
    if c.pending.Some? {
      var t := Submit(c.(cpuReserved := true), input.submission);
      ConcatAssociates(h.deliveries, polled.deliveries, t.deliveries);
    }
  }

  /** The order of a master's requests survives a tick, unless its own refused submission
      jumps the queue. */
  lemma TickKeepsOrder(h: History, windows: seq<nat>, input: Input, m: nat)
    requires h.state.next < |windows| || |windows| == 0
    requires InOrderFor(h, m)
    requires JumpsQueue(h.state, windows, input) ==> Offered(h.state, windows, input).pending.value.master != m
    ensures InOrderFor(Recorded(h, windows, input), m)
  {
    hide AfterPoll, Offered, Of, Recorded, Submit, Answered;
    var c, polled := Offered(h.state, windows, input), AfterPoll(h.state, input);
    OfferedInOrder(h, windows, input, m);
    RecordedParts(h, windows, input);
    if c.pending.Some? {
      var reserved := c.(cpuReserved := true);
      assert Open(reserved, m) == Open(c, m);
      if input.submission.Denied? {
        DeniedAnswers(h.deliveries + polled.deliveries, reserved, input.submission.error, m);
      } else {
        SubmitOpens(reserved, input.submission, m);
        assert (h.deliveries + polled.deliveries) + [] == h.deliveries + polled.deliveries;
      }
    }
  }

  lemma TakenRises(h: History, windows: seq<nat>, input: Input)
    requires h.state.next < |windows| || |windows| == 0
    requires Numbered(h)
    ensures Numbered(Recorded(h, windows, input)) && Rising(Recorded(h, windows, input).taken)
  {
    var polled := AfterPoll(h.state, input).state;
    assert polled.serials == h.state.serials;
  }

  lemma FrontMatters<T>(a: seq<T>, x: T, rest: seq<T>)
    requires rest != [] && rest[0] != x
    ensures a + [x] + rest != a + (rest + [x])
  {
    assert (a + [x] + rest)[|a|] == x;
    assert (a + (rest + [x]))[|a|] == rest[0];
  }

  /** A refused submission that jumps the queue does break the order. */
  lemma JumpBreaksOrder(h: History, windows: seq<nat>, input: Input)
    requires h.state.next < |windows| || |windows| == 0
    requires Numbered(h) && JumpsQueue(h.state, windows, input)
    requires InOrderFor(h, Offered(h.state, windows, input).pending.value.master)
    ensures !InOrderFor(Recorded(h, windows, input), Offered(h.state, windows, input).pending.value.master)
  {
    hide AfterPoll, Offered, Of, Recorded, Submit, Answered;
    var c, polled := Offered(h.state, windows, input), AfterPoll(h.state, input);
    var p := c.pending.value;
    var m := p.master;
    var r := Recorded(h, windows, input);
    var before, flights := Of(Answered(h.deliveries + polled.deliveries), m), Of(Requests(c.inFlight), m);
    OfferedInOrder(h, windows, input, m);
    RecordedParts(h, windows, input);
    var reserved := c.(cpuReserved := true);
    DeniedAnswers(h.deliveries + polled.deliveries, reserved, input.submission.error, m);
    OfOne(p);
    TakenRises(h, windows, input);
    OfRises(r.taken, m);
    assert Of(r.taken, m) == before + (flights + [p]);
    assert (before + (flights + [p]))[|before|] == flights[0];
    assert (before + (flights + [p]))[|before| + |flights|] == p;
    FrontMatters(before, p, flights);
  }

  lemma OfOne(p: Ticket)
    ensures Of([p], p.master) == [p]
  {
  }

  /** For any tick from an orderly history: the order is kept exactly when no refused
      submission has older requests of its master in flight. */
  lemma OrderIsExact(h: History, windows: seq<nat>, input: Input)
    requires Orderly(h, windows)
    ensures InOrder(Recorded(h, windows, input)) <==> !JumpsQueue(h.state, windows, input)
  {
    hide Recorded, JumpsQueue, Offered, InOrderFor;
    if JumpsQueue(h.state, windows, input) {
      JumpHasRequest(h.state, windows, input);
      assert InOrderFor(h, Offered(h.state, windows, input).pending.value.master);
      JumpBreaksOrder(h, windows, input);
    } else {
      forall m: nat ensures InOrderFor(Recorded(h, windows, input), m) {
        assert InOrderFor(h, m);
        TickKeepsOrder(h, windows, input, m);
      }
    }
  }

  lemma JumpHasRequest(s: State, windows: seq<nat>, input: Input)
    requires s.next < |windows| || |windows| == 0
    requires JumpsQueue(s, windows, input)
    ensures Offered(s, windows, input).pending.Some?
  {
  }

  /* ---------- windows ---------- */

  lemma PollFreesWindows(s: State, windows: seq<nat>, input: Input)
    requires WithinWindows(s, windows)
    ensures WithinWindows(AfterPoll(s, input).state, windows)
  {
    hide AfterPoll, Open;
    var polled := AfterPoll(s, input);
    forall m | 0 <= m < |windows| ensures Outstanding(polled.state, m) <= Window(windows, m) {
      PollOpens(s, input, m);
      OutstandingIsOpen(s, m);
      OutstandingIsOpen(polled.state, m);
    }
  }

  lemma ChooseFitsWindows(s: State, windows: seq<nat>, offers: nat -> Option<MasterRequest>)
    requires s.next < |windows| || |windows| == 0
    requires WithinWindows(s, windows)
    ensures WithinWindows(Choose(s, windows, offers), windows)
  {
  }

  lemma {:induction false} CountConcat(a: seq<MasterFlight>, b: seq<MasterFlight>, m: nat)
    ensures CountFor(a + b, m) == CountFor(a, m) + CountFor(b, m)
  {
    if a == [] {
      assert a + b == b;
    } else {
      TailOfConcat(a, b);
      CountConcat(a[1..], b, m);
    }
  }

  lemma SubmitFitsWindows(s: State, windows: seq<nat>, submission: Submission)
    requires s.pending.Some? && WithinWindows(s, windows)
    ensures WithinWindows(Submit(s, submission).state, windows)
  {
    var t, ticket := Submit(s, submission).state, s.pending.value;
    forall m | 0 <= m < |windows| ensures Outstanding(t, m) <= Outstanding(s, m) {
      if submission.Granted? {
        var flight := MasterFlight(ticket, IdFor(ticket.request, submission.id), None);
        CountConcat(s.inFlight, [flight], m);
        assert CountFor([flight], m) == if ticket.master == m then 1 else 0;
      }
    }
  }

  /** No master is ever given more than its window, refusals or not. */
  lemma TickKeepsWindows(s: State, windows: seq<nat>, input: Input)
    requires s.next < |windows| || |windows| == 0
    requires WithinWindows(s, windows)
    ensures WithinWindows(Arbitrate(s, windows, input).state, windows)
  {
    hide AfterPoll, Choose, Submit;
    PollFreesWindows(s, windows, input);
    ChooseFitsWindows(AfterPoll(s, input).state, windows, input.offers);
    var c := Offered(s, windows, input);
    if c.pending.Some? {
      var reserved := c.(cpuReserved := true);
      assert forall m: nat :: Outstanding(reserved, m) == Outstanding(c, m);
      SubmitFitsWindows(reserved, windows, input.submission);
    }
  }

  /* ---------- every request is answered once ---------- */

  function Bag(s: seq<Ticket>): multiset<Ticket> { multiset(s) }

  function Held(s: State): multiset<Ticket> { Bag(Requests(s.inFlight)) + Bag(Waiting(s)) }

  /** Requests are answered, in flight or waiting, each in one place only. */
  predicate Accounted(h: History) { Bag(h.taken) == Bag(Answered(h.deliveries)) + Held(h.state) }

  lemma BagOfNone()
    ensures Bag([]) == multiset{}
  {
  }

  lemma BagConcat(a: seq<Ticket>, b: seq<Ticket>)
    ensures Bag(a + b) == Bag(a) + Bag(b)
  {
  }

  lemma RemovedFromBag(flights: seq<MasterFlight>, index: nat)
    requires index < |flights|
    ensures Bag(Requests(flights)) == Bag([flights[index].ticket]) + Bag(Requests(flights[..index] + flights[index + 1..]))
  {
    hide Bag, Requests;
    var all, x := Requests(flights), flights[index].ticket;
    TakenOut(all, index);
    RequestsWithout(flights, index);
    BagConcat(all[..index], [x] + all[index + 1..]);
    BagConcat([x], all[index + 1..]);
    BagConcat(all[..index], all[index + 1..]);
    SumAssociates(Bag(all[..index]), Bag([x]), Bag(all[index + 1..]));
  }

  lemma SumAssociates<T>(a: multiset<T>, b: multiset<T>, c: multiset<T>)
    ensures a + (b + c) == b + (a + c) && a + (b + c) == (a + b) + c
  {
  }

  lemma {:induction false} DeliverAccounts(flights: seq<MasterFlight>, index: nat)
    requires index <= |flights|
    ensures var d := Deliver(flights, index); Bag(Requests(flights)) == Bag(Answered(d.deliveries)) + Bag(Requests(d.rest))
    decreases |flights| - index
  {
    hide Deliver, Bag, Answered, Requests;
    DeliverAt(flights, index);
    if index == |flights| {
      NothingAnswered(0);
      BagOfNone();
    } else if !Deliverable(flights, index) {
      DeliverAccounts(flights, index + 1);
    } else {
      var rest, first := flights[..index] + flights[index + 1..], Delivery(flights[index].ticket, flights[index].completion.value);
      var d := Deliver(rest, index);
      DeliverAccounts(rest, index);
      RemovedFromBag(flights, index);
      AnsweredFirst(first, d.deliveries);
      BagConcat([first.ticket], Answered(d.deliveries));
      SumAssociates(Bag([first.ticket]), Bag(Answered(d.deliveries)), Bag(Requests(d.rest)));
    }
  }

  lemma PollAccounts(s: State, input: Input)
    ensures var t := AfterPoll(s, input); Held(s) == Bag(Answered(t.deliveries)) + Held(t.state)
  {
    hide Bag, Deliver;
    var polled := PollAll(s.inFlight, input);
    assert Requests(polled) == Requests(s.inFlight);
    DeliverAccounts(polled, 0);
  }

  lemma OfferAccounts(h: History, windows: seq<nat>, input: Input)
    requires h.state.next < |windows| || |windows| == 0
    ensures var c, polled := Offered(h.state, windows, input), AfterPoll(h.state, input).state;
            && Recorded(h, windows, input).taken == h.taken + Fresh(h.state, c)
            && Held(c) == Held(polled) + Bag(Fresh(h.state, c))
  {
    hide AfterPoll, Select;
  }

  lemma SubmitAccounts(s: State, submission: Submission)
    requires s.pending.Some?
    ensures var t := Submit(s, submission); Held(s) == Bag(Answered(t.deliveries)) + Held(t.state)
  {
    hide Bag;
    BagOfNone();
    if submission.Granted? {
      var ticket := s.pending.value;
      var flight := MasterFlight(ticket, IdFor(ticket.request, submission.id), None);
      assert Requests(s.inFlight + [flight]) == Requests(s.inFlight) + [ticket];
      BagConcat(Requests(s.inFlight), [ticket]);
    } else if submission.Denied? {
      assert Answered(Submit(s, submission).deliveries) == [s.pending.value];
    } else {
      assert Answered([]) == [];
    }
  }

  /** Whatever the bus below does, refusals included, no request is lost or answered twice. */
  lemma TickAccounts(h: History, windows: seq<nat>, input: Input)
    requires h.state.next < |windows| || |windows| == 0
    requires Accounted(h)
    ensures Accounted(Recorded(h, windows, input))
  {
    hide AfterPoll, Offered, Recorded, Submit, Bag, Held, Answered, Fresh;
    var r, c, polled := Recorded(h, windows, input), Offered(h.state, windows, input), AfterPoll(h.state, input);
    RecordedParts(h, windows, input);
    PollAccounts(h.state, input);
    OfferAccounts(h, windows, input);
    BagConcat(h.taken, Fresh(h.state, c));
    AnsweredConcat(h.deliveries, polled.deliveries);
    BagConcat(Answered(h.deliveries), Answered(polled.deliveries));
    if c.pending.Some? {
      var reserved := c.(cpuReserved := true);
      var t := Submit(reserved, input.submission);
      ReservedHolds(c);
      SubmitAccounts(reserved, input.submission);
      AnsweredConcat(h.deliveries + polled.deliveries, t.deliveries);
      BagConcat(Answered(h.deliveries + polled.deliveries), Answered(t.deliveries));
    }
  }

  lemma ReservedHolds(c: State)
    ensures Held(c.(cpuReserved := true)) == Held(c)
  {
  }

  /* ---------- answers fit their requests ---------- */

  predicate Fits(r: MasterRequest, c: Completion) {
    match c
    case Fault(_) => true
    case Done(answer) =>
      match r
      case LoadOne(_) => answer.LoadedOne?
      case StoreOne(_, _) => answer.StoredOne?
      case ReadMany(_, _) => answer.ReadDone?
      case WriteMany(_, _) => answer.WriteDone?
  }

  predicate FlightFits(x: MasterFlight) { x.completion.Some? ==> Fits(x.ticket.request, x.completion.value) }

  predicate AllFit(flights: seq<MasterFlight>) { forall i | 0 <= i < |flights| :: FlightFits(flights[i]) }

  predicate DeliveriesFit(ds: seq<Delivery>) { forall i | 0 <= i < |ds| :: Fits(ds[i].ticket.request, ds[i].response) }

  lemma {:induction false} DeliverFits(flights: seq<MasterFlight>, index: nat)
    requires index <= |flights| && AllFit(flights)
    ensures var d := Deliver(flights, index); AllFit(d.rest) && DeliveriesFit(d.deliveries)
    decreases |flights| - index
  {
    if index < |flights| {
      if !Deliverable(flights, index) {
        DeliverFits(flights, index + 1);
      } else {
        DeliverFits(flights[..index] + flights[index + 1..], index);
        assert FlightFits(flights[index]);
      }
    }
  }

  /** A master only ever hears an error, or the kind of answer its request calls for. */
  lemma TickFits(s: State, windows: seq<nat>, input: Input)
    requires s.next < |windows| || |windows| == 0
    requires AllFit(s.inFlight)
    ensures var t := Arbitrate(s, windows, input); AllFit(t.state.inFlight) && DeliveriesFit(t.deliveries)
  {
    hide Deliver, Select, PollAll;
    var polled := PollAll(s.inFlight, input);
    forall i | 0 <= i < |polled| ensures FlightFits(polled[i]) {
      assert FlightFits(s.inFlight[i]);
    }
    DeliverFits(polled, 0);
  }

  /* ---------- whole runs ---------- */

  function Ticks(h: History, windows: seq<nat>, inputs: seq<Input>): (r: History)
    requires h.state.next < |windows| || |windows| == 0
    ensures r.state.next < |windows| || |windows| == 0
    decreases |inputs|
  {
    if inputs == [] then h else Ticks(Recorded(h, windows, inputs[0]), windows, inputs[1..])
  }

  /** No refused submission in the run has older requests of its master in flight. */
  predicate NeverJumps(h: History, windows: seq<nat>, inputs: seq<Input>)
    requires h.state.next < |windows| || |windows| == 0
    decreases |inputs|
  {
    inputs == [] ||
    (!JumpsQueue(h.state, windows, inputs[0]) && NeverJumps(Recorded(h, windows, inputs[0]), windows, inputs[1..]))
  }

  const IDLE: State := State(0, None, [], false, 0)

  const BEGINNING: History := History(IDLE, [], [])

  /** What holds of every run, refusals or not. */
  ghost predicate Settled(h: History, windows: seq<nat>) {
    && (h.state.next < |windows| || |windows| == 0)
    && Accounted(h) && Numbered(h) && WithinWindows(h.state, windows) && AllFit(h.state.inFlight) && DeliveriesFit(h.deliveries)
  }

  lemma TickSettles(h: History, windows: seq<nat>, input: Input)
    requires Settled(h, windows)
    ensures Settled(Recorded(h, windows, input), windows)
  {
    hide Arbitrate, Offered, Accounted, Numbered, WithinWindows;
    TickAccounts(h, windows, input);
    TakenRises(h, windows, input);
    TickKeepsWindows(h.state, windows, input);
    TickFits(h.state, windows, input);
  }

  /** In every run no request is lost or answered twice, no master exceeds its window, and
      every answer fits its request. */
  lemma {:induction false} EveryRunAccounts(h: History, windows: seq<nat>, inputs: seq<Input>)
    requires Settled(h, windows)
    ensures Settled(Ticks(h, windows, inputs), windows)
    decreases |inputs|
  {
    if inputs != [] {
      hide Accounted, Numbered, WithinWindows, AllFit, DeliveriesFit, Recorded;
      TickSettles(h, windows, inputs[0]);
      EveryRunAccounts(Recorded(h, windows, inputs[0]), windows, inputs[1..]);
    }
  }

  lemma BeginningSettled(windows: seq<nat>)
    ensures Settled(BEGINNING, windows) && InOrder(BEGINNING)
  {
  }

  /** In every run without a queue jump each master is answered in the order it asked. */
  lemma {:induction false} EveryRunInOrder(h: History, windows: seq<nat>, inputs: seq<Input>)
    requires Settled(h, windows) && InOrder(h) && NeverJumps(h, windows, inputs)
    ensures InOrder(Ticks(h, windows, inputs))
    decreases |inputs|
  {
    if inputs != [] {
      hide Accounted, Numbered, WithinWindows, InOrder, Recorded, JumpsQueue;
      TickSettles(h, windows, inputs[0]);
      OrderIsExact(h, windows, inputs[0]);
      EveryRunInOrder(Recorded(h, windows, inputs[0]), windows, inputs[1..]);
    }
  }

  /** So a master's answers are a prefix of its requests, and all of them once it has
      nothing open. */
  lemma AnswersArePrefix(windows: seq<nat>, inputs: seq<Input>, m: nat)
    requires NeverJumps(BEGINNING, windows, inputs)
    ensures var h := Ticks(BEGINNING, windows, inputs);
            && Of(Answered(h.deliveries), m) <= Of(h.taken, m)
            && |Of(h.taken, m)| == |Of(Answered(h.deliveries), m)| + Outstanding(h.state, m)
            && (m < |windows| ==> Outstanding(h.state, m) <= Window(windows, m))
  {
    hide Ticks, Accounted, NeverJumps;
    var h := Ticks(BEGINNING, windows, inputs);
    BeginningSettled(windows);
    EveryRunInOrder(BEGINNING, windows, inputs);
    EveryRunAccounts(BEGINNING, windows, inputs);
    assert InOrderFor(h, m);
    OutstandingIsOpen(h.state, m);
  }

  /* ---------- round robin ---------- */

  /** How many places on from `next` a master is. */
  function Distance(next: nat, master: nat, count: nat): nat
    requires next < count && master < count
  {
    if next <= master then master - next else master + count - next
  }

  lemma {:induction false} SelectIsNearest(s: State, windows: seq<nat>, offers: nat -> Option<MasterRequest>, offset: nat, i: nat)
    requires s.next < |windows| && offset <= |windows| && i < |windows|
    requires Eligible(s, windows, offers, i) && offset <= Distance(s.next, i, |windows|)
    ensures var chosen := Select(s, windows, offers, offset);
            chosen.Some? && offset <= Distance(s.next, chosen.value, |windows|) <= Distance(s.next, i, |windows|)
    decreases |windows| - offset
  {
    assert Around(s.next, Distance(s.next, i, |windows|), |windows|) == i;
    var master := Around(s.next, offset, |windows|);
    if !Eligible(s, windows, offers, master) { SelectIsNearest(s, windows, offers, offset + 1, i); }
  }

  /** The state in which a tick chooses. */
  function Polling(s: State, input: Input): State { AfterPoll(s, input).state }

  /** A tick that finds no request waiting takes one if any master is eligible. */
  predicate Takes(s: State, windows: seq<nat>, input: Input)
    requires s.next < |windows|
  {
    Offered(s, windows, input).serials > s.serials
  }

  function TakenFrom(s: State, windows: seq<nat>, input: Input): nat
    requires s.next < |windows| && Takes(s, windows, input)
  {
    Offered(s, windows, input).pending.value.master
  }

  predicate AlwaysEligible(h: History, windows: seq<nat>, inputs: seq<Input>, i: nat)
    requires h.state.next < |windows| && i < |windows|
    decreases |inputs|
  {
    inputs == [] ||
    (Eligible(Polling(h.state, inputs[0]), windows, inputs[0].offers, i) &&
     AlwaysEligible(Recorded(h, windows, inputs[0]), windows, inputs[1..], i))
  }

  /** While a master stays eligible, every request taken from another brings its turn nearer,
      and a tick that finds nothing waiting does take one. */
  lemma TurnComesNearer(s: State, windows: seq<nat>, input: Input, i: nat)
    requires s.next < |windows| && i < |windows|
    requires Eligible(Polling(s, input), windows, input.offers, i)
    ensures var after := Arbitrate(s, windows, input).state.next;
            && (Takes(s, windows, input) <==> s.pending.None?)
            && (!Takes(s, windows, input) ==> after == s.next)
            && (Takes(s, windows, input) && TakenFrom(s, windows, input) != i ==>
                Distance(after, i, |windows|) < Distance(s.next, i, |windows|))
  {
    hide Select, Deliver, PollAll, Eligible;
    var polled := AfterPoll(s, input).state;
    if s.pending.None? {
      SelectIsNearest(polled, windows, input.offers, 0, i);
    }
  }

  lemma TakenGrows(h: History, windows: seq<nat>, input: Input, i: nat)
    requires h.state.next < |windows|
    ensures var r := Recorded(h, windows, input);
            && |Of(r.taken, i)| == |Of(h.taken, i)| +
               (if Takes(h.state, windows, input) && TakenFrom(h.state, windows, input) == i then 1 else 0)
            && r.state.serials == h.state.serials + (if Takes(h.state, windows, input) then 1 else 0)
  {
    hide AfterPoll, Select, Of;
    OfConcat(h.taken, Fresh(h.state, Offered(h.state, windows, input)), i);
    if Takes(h.state, windows, input) { OfSingle(Offered(h.state, windows, input).pending.value, i); } else { OfEmpty(i); }
  }

  lemma OfSingle(p: Ticket, m: nat)
    ensures Of([p], m) == if p.master == m then [p] else []
  {
  }

  lemma OfEmpty(m: nat)
    ensures Of([], m) == []
  {
  }

  lemma {:induction false} RunsTakeMore(h: History, windows: seq<nat>, inputs: seq<Input>, i: nat)
    requires h.state.next < |windows|
    ensures |Of(Ticks(h, windows, inputs).taken, i)| >= |Of(h.taken, i)|
    decreases |inputs|
  {
    if inputs != [] {
      hide Of, Recorded, Takes;
      TakenGrows(h, windows, inputs[0], i);
      RunsTakeMore(Recorded(h, windows, inputs[0]), windows, inputs[1..], i);
    }
  }

  /** A master that stays eligible throughout a run, and is passed over in all of it, is
      passed over fewer times than there are masters. */
  lemma {:induction false} BoundedWaiting(h: History, windows: seq<nat>, inputs: seq<Input>, i: nat)
    requires h.state.next < |windows| && i < |windows|
    requires AlwaysEligible(h, windows, inputs, i)
    requires |Of(Ticks(h, windows, inputs).taken, i)| == |Of(h.taken, i)|
    ensures var r := Ticks(h, windows, inputs).state;
            r.serials - h.state.serials + Distance(r.next, i, |windows|) <= Distance(h.state.next, i, |windows|) < |windows|
    decreases |inputs|
  {
    if inputs != [] {
      hide Of, Takes, TakenFrom, Eligible, Arbitrate, Offered;
      var next := Recorded(h, windows, inputs[0]);
      TakenGrows(h, windows, inputs[0], i);
      RunsTakeMore(next, windows, inputs[1..], i);
      TurnComesNearer(h.state, windows, inputs[0], i);
      BoundedWaiting(next, windows, inputs[1..], i);
    }
  }

  /* ---------- a queue jump ---------- */

  /** One master asking for the same word over and over, and nothing completing below. */
  function AskingInput(submission: Submission): Input {
    Input(_ => None, _ => None, _ => Some(LoadOne(0)), submission)
  }

  const FIRST_TICKET: Ticket := Ticket(0, 0, LoadOne(0))
  const SECOND_TICKET: Ticket := Ticket(1, 0, LoadOne(0))

  /** Its first request granted. */
  const ONE_IN_FLIGHT: History :=
    History(State(0, None, [MasterFlight(FIRST_TICKET, AccessId(0), None)], true, 1), [FIRST_TICKET], [])

  lemma FirstGranted()
    ensures Recorded(BEGINNING, [2], AskingInput(Granted(0))) == ONE_IN_FLIGHT
  {
    var input := AskingInput(Granted(0));
    assert PollAll([], input) == [];
    assert Select(IDLE, [2], input.offers, 0) == Some(0);
  }

  lemma SecondDenied(e: Error)
    ensures var r := Recorded(ONE_IN_FLIGHT, [2], AskingInput(Denied(e)));
            && r.taken == [FIRST_TICKET, SECOND_TICKET] && r.deliveries == [Delivery(SECOND_TICKET, Fault(e))]
            && r.state.inFlight == ONE_IN_FLIGHT.state.inFlight && r.state.pending.None?
  {
    var input, flights := AskingInput(Denied(e)), ONE_IN_FLIGHT.state.inFlight;
    assert PollAll(flights, input) == flights;
    assert Deliver(flights, 0) == Deliver(flights, 1) == Delivered(flights, []);
    assert CountFor(flights, 0) == 1 + CountFor(flights[1..], 0);
    var polled := AfterPoll(ONE_IN_FLIGHT.state, input).state;
    assert Select(polled, [2], input.offers, 0) == Some(0);
  }

  /** A single master with a window of two: its first request is granted, its second, made
      while the first is still in flight, is refused and so is answered first. */
  lemma QueueJump(e: Error)
    ensures var h := Ticks(BEGINNING, [2], [AskingInput(Granted(0)), AskingInput(Denied(e))]);
            && Answered(h.deliveries) == [SECOND_TICKET] && Requests(h.state.inFlight) == [FIRST_TICKET]
            && !InOrder(h)
  {
    hide Recorded, InOrderFor;
    var windows, inputs := [2], [AskingInput(Granted(0)), AskingInput(Denied(e))];
    var r := Recorded(ONE_IN_FLIGHT, windows, inputs[1]);
    FirstGranted();
    SecondDenied(e);
    assert Ticks(BEGINNING, windows, inputs) == Ticks(ONE_IN_FLIGHT, windows, inputs[1..]);
    assert inputs[1..][1..] == [];
    assert Ticks(ONE_IN_FLIGHT, windows, inputs[1..]) == Ticks(r, windows, inputs[1..][1..]);
    assert !InOrderFor(r, 0) by { OutOfOrder(r); }
  }

  lemma OutOfOrder(r: History)
    requires r.taken == [FIRST_TICKET, SECOND_TICKET] && Answered(r.deliveries) == [SECOND_TICKET]
    ensures !InOrderFor(r, 0)
  {
    assert Of(r.taken, 0)[0] == FIRST_TICKET;
    assert Of(Answered(r.deliveries), 0)[0] == SECOND_TICKET;
  }

  /* ---------- the arbiter in place ---------- */

  class ArbiterBus {
    var nextMasterIndex: nat
    var pendingRequest: Option<Ticket>
    var inFlightRequests: seq<MasterFlight>
    var cpuReservedThisCycle: bool
    var serials: nat
    const windows: seq<nat>

    ghost function Now(): State
      reads this
    {
      State(nextMasterIndex, pendingRequest, inFlightRequests, cpuReservedThisCycle, serials)
    }

    ghost predicate Valid()
      reads this
    {
      nextMasterIndex < |windows| || |windows| == 0
    }

    constructor (windows: seq<nat>)
      ensures Valid() && Now() == IDLE && this.windows == windows
    {
      nextMasterIndex, pendingRequest, inFlightRequests, cpuReservedThisCycle, serials := 0, None, [], false, 0;
      this.windows := windows;
    }

    /** Collect completions, then deliver those that are their master's oldest. */
    method PollInFlight(input: Input) returns (deliveries: seq<Delivery>)
      modifies this`inFlightRequests
      ensures inFlightRequests == Deliver(PollAll(old(inFlightRequests), input), 0).rest
      ensures deliveries == Deliver(PollAll(old(inFlightRequests), input), 0).deliveries
    {
      ghost var start := inFlightRequests;
      var index := 0;
      while index < |inFlightRequests|
        invariant index <= |inFlightRequests| == |start|
        invariant forall k | 0 <= k < |start| :: inFlightRequests[k] == if k < index then Polled(start[k], input) else start[k]
      {
        if inFlightRequests[index].completion.None? {
          var result := AnswerBelow(inFlightRequests[index], input);
          if result.Some? {
            inFlightRequests := inFlightRequests[index := inFlightRequests[index].(completion := result)];
          }
        }
        index := index + 1;
      }
      assert inFlightRequests == PollAll(start, input);
      deliveries := [];
      index := 0;
      while index < |inFlightRequests|
        invariant index <= |inFlightRequests|
        invariant var d, more := Deliver(PollAll(start, input), 0), Deliver(inFlightRequests, index);
                  d.rest == more.rest && d.deliveries == deliveries + more.deliveries
        decreases |inFlightRequests| - index
      {
        var active := inFlightRequests[index];
        if active.completion.None? || !Oldest(inFlightRequests, index, active.ticket.master) {
          index := index + 1;
        } else {
          ghost var more := Deliver(inFlightRequests, index).deliveries;
          inFlightRequests := inFlightRequests[..index] + inFlightRequests[index + 1..];
          deliveries := deliveries + [Delivery(active.ticket, active.completion.value)];
        }
      }
    }

    /** Take a request from the first eligible master, starting at the next in turn. */
    method SelectNextRequest(offers: nat -> Option<MasterRequest>)
      requires Valid() && pendingRequest.None?
      modifies this`nextMasterIndex, this`pendingRequest, this`serials
      ensures Valid() && Now() == Choose(old(Now()), windows, offers)
    {
      var offset := 0;
      while offset < |windows|
        invariant offset <= |windows| && unchanged(this)
        invariant |windows| > 0 ==> Select(Now(), windows, offers, offset) == Select(Now(), windows, offers, 0)
      {
        var index := Around(nextMasterIndex, offset, |windows|);
        var now := State(nextMasterIndex, pendingRequest, inFlightRequests, cpuReservedThisCycle, serials);
        if Outstanding(now, index) < Window(windows, index) && offers(index).Some? {
          pendingRequest := Some(Ticket(serials, index, offers(index).value));
          nextMasterIndex := Around(index, if |windows| > 1 then 1 else 0, |windows|);
          serials := serials + 1;
          return;
        }
        offset := offset + 1;
      }
    }

    method TrySubmit(submission: Submission) returns (deliveries: seq<Delivery>)
      requires pendingRequest.Some?
      modifies this`pendingRequest, this`inFlightRequests
      ensures Ticked(Now(), deliveries) == Submit(old(Now()), submission)
    {
      var ticket := pendingRequest.value;
      deliveries := [];
      match submission {
        case Granted(id) =>
          inFlightRequests := inFlightRequests + [MasterFlight(ticket, IdFor(ticket.request, id), None)];
          pendingRequest := None;
        case SubmitBusy =>
        case Denied(error) =>
          deliveries := [Delivery(ticket, Fault(error))];
          pendingRequest := None;
      }
    }

    method Clock(input: Input) returns (deliveries: seq<Delivery>)
      requires Valid()
      modifies this
      ensures Valid() && Ticked(Now(), deliveries) == Arbitrate(old(Now()), windows, input)
    {
      cpuReservedThisCycle := false;
      deliveries := PollInFlight(input);
      if pendingRequest.None? { SelectNextRequest(input.offers); }
      if pendingRequest.Some? {
        cpuReservedThisCycle := true;
        var refusals := TrySubmit(input.submission);
        deliveries := deliveries + refusals;
      }
    }
  }
}
