/** Under least-recently-used replacement a set holds exactly its most recently touched
    lines. */
module CacheLru {
  import opened Wrappers
  import opened BusFabric
  import opened CachePort
  import opened Cache
  import opened CacheProof
  import opened CacheRuns

  /* ---------- recency lists ---------- */

  predicate Distinct(s: seq<nat>) { forall i, k | 0 <= i < k < |s| :: s[i] != s[k] }

  function Without(s: seq<nat>, t: nat): seq<nat> {
    if s == [] then [] else (if s[0] == t then [] else [s[0]]) + Without(s[1..], t)
  }

  /** The tags touched so far, each once, the latest first. */
  function Touched(recent: seq<nat>, tag: nat): seq<nat> { [tag] + Without(recent, tag) }

  lemma {:induction false} WithoutAbsent(s: seq<nat>, t: nat)
    requires t !in s
    ensures Without(s, t) == s
  {
    if s != [] { WithoutAbsent(s[1..], t); }
  }

  /** Taking out the element at `i` closes the gap. */
  lemma {:induction false} WithoutAt(s: seq<nat>, i: nat)
    requires Distinct(s) && i < |s|
    ensures Without(s, s[i]) == s[..i] + s[i + 1..]
  {
    if i == 0 {
      WithoutAbsent(s[1..], s[0]);
      assert s[..0] + s[1..] == s[1..];
    } else {
      WithoutAt(s[1..], i - 1);
      assert s[1..][i - 1] == s[i];
      assert [s[0]] + (s[1..][..i - 1] + s[1..][i..]) == s[..i] + s[i + 1..];
    }
  }

  lemma TouchedDistinct(recent: seq<nat>, tag: nat)
    requires Distinct(recent)
    ensures Distinct(Touched(recent, tag))
  {
    if tag in recent {
      var i :| 0 <= i < |recent| && recent[i] == tag;
      WithoutAt(recent, i);
    } else {
      WithoutAbsent(recent, tag);
    }
  }

  /** Touching a tag that is among the first `m` keeps the same tags among the first `m`;
      touching another pushes them back by one. */
  lemma TouchedPrefix(recent: seq<nat>, tag: nat, m: nat)
    requires Distinct(recent) && m <= |recent|
    ensures tag !in recent[..m] ==> |Touched(recent, tag)| > m && Touched(recent, tag)[..m + 1] == [tag] + recent[..m]
    ensures tag !in recent[..m] ==> |Touched(recent, tag)| == |recent| + (if tag in recent then 0 else 1)
    ensures tag in recent[..m] ==> |Touched(recent, tag)| == |recent|
    ensures forall i | 0 <= i < m && recent[i] == tag ::
      Touched(recent, tag)[..m] == [tag] + recent[..i] + recent[i + 1..m]
  {
    if tag in recent {
      var i :| 0 <= i < |recent| && recent[i] == tag;
      WithoutAt(recent, i);
      var rest := Without(recent, tag);
      if i >= m {
        assert rest[..m] == recent[..m];
      } else {
        assert ([tag] + rest)[..m] == [tag] + rest[..m - 1];
        assert rest[..m - 1] == recent[..i] + recent[i + 1..m];
      }
    } else {
      WithoutAbsent(recent, tag);
    }
  }

  /* ---------- a set and its list ---------- */

  /** `order[i]` is the way of the i-th most recently touched tag; together these are
      all the valid lines, the earlier in the list the later used. */
  predicate Ordered(lines: seq<CacheLine>, recent: seq<nat>, order: seq<nat>, epoch: nat) {
    |order| <= |recent| && Distinct(recent) &&
    (forall i | 0 <= i < |order| ::
       order[i] < |lines| && lines[order[i]].valid && lines[order[i]].tag == recent[i] && lines[order[i]].lastUsed <= epoch) &&
    (forall i, k | 0 <= i < k < |order| :: lines[order[i]].lastUsed > lines[order[k]].lastUsed) &&
    (forall w | 0 <= w < |lines| && lines[w].valid :: w in order)
  }

  function Upto(n: nat): (s: set<nat>)
    ensures |s| == n && forall w: nat :: w in s <==> w < n
  {
    if n == 0 then {} else Upto(n - 1) + {n - 1}
  }

  function Elements(s: seq<nat>): (e: set<nat>)
    ensures forall x :: x in e <==> x in s
  {
    set x | x in s
  }

  lemma {:induction false} DistinctCount(s: seq<nat>)
    requires Distinct(s)
    ensures |Elements(s)| == |s|
  {
    if s != [] {
      DistinctCount(s[1..]);
      assert Elements(s) == {s[0]} + Elements(s[1..]);
    }
  }

  lemma {:induction false} SmallerSubset(a: set<nat>, b: set<nat>)
    requires a <= b
    ensures |a| <= |b| && (|a| == |b| ==> a == b)
  {
    assert b == a + (b - a) && |b| == |a| + |b - a|;
  }

  /** A set is full exactly when as many lines are listed as it has ways. */
  lemma FullIsAllValid(lines: seq<CacheLine>, recent: seq<nat>, order: seq<nat>, epoch: nat)
    requires Ordered(lines, recent, order, epoch)
    ensures |order| <= |lines|
    ensures |order| == |lines| <==> forall w | 0 <= w < |lines| :: lines[w].valid
  {
    assert Distinct(order);
    DistinctCount(order);
    SmallerSubset(Elements(order), Upto(|lines|));
    if |order| == |lines| {
      forall w: nat | 0 <= w < |lines| ensures lines[w].valid {
        assert w in Upto(|lines|);
      }
    }
    if forall w | 0 <= w < |lines| :: lines[w].valid {
      assert forall w: nat :: w in Upto(|lines|) ==> w in Elements(order);
      SmallerSubset(Upto(|lines|), Elements(order));
    }
  }

  lemma LastIsOldest(lines: seq<CacheLine>, recent: seq<nat>, order: seq<nat>, epoch: nat, k: nat)
    requires Ordered(lines, recent, order, epoch) && k < |order|
    ensures k < |order| - 1 ==> lines[order[|order| - 1]].lastUsed < lines[order[k]].lastUsed
  {
  }

  /** Evicting the least recently used line of a set leaves the rest of the list. */
  lemma EvictLast(lines: seq<CacheLine>, recent: seq<nat>, order: seq<nat>, epoch: nat, way: nat, after: CacheLine)
    requires Ordered(lines, recent, order, epoch) && way < |lines| && lines[way].valid && !after.valid
    requires forall j | 0 <= j < |lines| && lines[j].valid :: lines[way].lastUsed <= lines[j].lastUsed
    ensures |order| > 0 && order[|order| - 1] == way
    ensures Ordered(lines[way := after], recent, order[..|order| - 1], epoch)
  {
    var k :| 0 <= k < |order| && order[k] == way;
    LastIsOldest(lines, recent, order, epoch, k);
    var rest := lines[way := after];
    forall w | 0 <= w < |rest| && rest[w].valid ensures w in order[..|order| - 1] {
      var i :| 0 <= i < |order| && order[i] == w;
      assert order[..|order| - 1][i] == w;
    }
  }

  /** Changing a line that is not valid, and leaving it so, changes nothing. */
  lemma InvalidLineIsFree(lines: seq<CacheLine>, recent: seq<nat>, order: seq<nat>, epoch: nat, way: nat, after: CacheLine)
    requires Ordered(lines, recent, order, epoch) && way < |lines| && !lines[way].valid && !after.valid
    ensures Ordered(lines[way := after], recent, order, epoch)
  {
  }

  /** Filling a way puts its tag at the head of the list. */
  lemma FillFirst(lines: seq<CacheLine>, recent: seq<nat>, order: seq<nat>, epoch: nat, way: nat, after: CacheLine)
    requires Ordered(lines, recent, order, epoch) && way < |lines| && !lines[way].valid && after.valid
    requires after.tag !in recent[..|order|] && after.lastUsed > epoch
    ensures Ordered(lines[way := after], Touched(recent, after.tag), [way] + order, after.lastUsed)
  {
    TouchedDistinct(recent, after.tag);
    TouchedPrefix(recent, after.tag, |order|);
    var touched, filled, rest := Touched(recent, after.tag), lines[way := after], [way] + order;
    assert forall i | 0 <= i < |order| :: order[i] != way;
    hide Touched;
    forall i | 0 <= i < |rest|
      ensures rest[i] < |filled| && filled[rest[i]] == (if i == 0 then after else lines[order[i - 1]])
      ensures filled[rest[i]].tag == touched[i]
    {
      assert touched[i] == touched[..|order| + 1][i];
    }
    forall w | 0 <= w < |filled| && filled[w].valid ensures w in rest {
      if w != way { assert w in order; } else { assert rest[0] == way; }
    }
    hide Ordered;
    Assembled(filled, touched, rest, after.lastUsed);
  }

  /** Where the j-th element comes from when element i moves to the head. */
  function Source(i: nat, j: nat): nat { if j == 0 then i else if j <= i then j - 1 else j }

  function MovedFirst(s: seq<nat>, i: nat): (r: seq<nat>)
    requires i < |s|
    ensures |r| == |s|
    ensures forall j | 0 <= j < |s| :: r[j] == s[Source(i, j)]
  {
    [s[i]] + s[..i] + s[i + 1..]
  }

  lemma TouchedListed(recent: seq<nat>, m: nat, i: nat)
    requires Distinct(recent) && i < m <= |recent|
    ensures |Touched(recent, recent[i])| == |recent| && Distinct(Touched(recent, recent[i]))
    ensures forall j | 0 <= j < m :: Touched(recent, recent[i])[j] == MovedFirst(recent[..m], i)[j]
  {
    TouchedDistinct(recent, recent[i]);
    TouchedPrefix(recent, recent[i], m);
    assert recent[..m][i] == recent[i];
    var t := Touched(recent, recent[i]);
    assert t[..m] == MovedFirst(recent[..m], i);
    forall j | 0 <= j < m ensures t[j] == MovedFirst(recent[..m], i)[j] { assert t[j] == t[..m][j]; }
  }

  /** Moving way i to the head of the order, with its line now the latest used. */
  lemma OrderMoved(lines: seq<CacheLine>, recent: seq<nat>, order: seq<nat>, epoch: nat, i: nat, after: CacheLine)
    requires Ordered(lines, recent, order, epoch) && i < |order| && after.valid
    requires after.tag == lines[order[i]].tag && after.lastUsed > epoch
    ensures Ordered(lines[order[i] := after], Touched(recent, after.tag), MovedFirst(order, i), after.lastUsed)
  {
    var next, moved, touched := MovedFirst(order, i), lines[order[i] := after], Touched(recent, after.tag);
    TouchedListed(recent, |order|, i);
    OtherWays(lines, recent, order, epoch, i);
    hide Touched, MovedFirst, Distinct;
    forall j | 0 <= j < |next|
      ensures next[j] < |moved| && moved[next[j]] == if j == 0 then after else lines[order[Source(i, j)]]
      ensures moved[next[j]].valid && moved[next[j]].tag == touched[j] && moved[next[j]].lastUsed <= after.lastUsed
    {
      assert next[j] == order[Source(i, j)];
      assert touched[j] == recent[..|order|][Source(i, j)] == recent[Source(i, j)];
    }
    AgesMoved(lines, order, i, after, moved, next);
    EveryWayMoved(lines, moved, order, next, i);
    assert |next| <= |touched| && Distinct(touched);
    hide Ordered, Source;
    Assembled(moved, touched, next, after.lastUsed);
  }

  lemma Assembled(lines: seq<CacheLine>, recent: seq<nat>, order: seq<nat>, epoch: nat)
    requires |order| <= |recent| && Distinct(recent)
    requires forall i | 0 <= i < |order| ::
      order[i] < |lines| && lines[order[i]].valid && lines[order[i]].tag == recent[i] && lines[order[i]].lastUsed <= epoch
    requires forall i, k | 0 <= i < k < |order| :: lines[order[i]].lastUsed > lines[order[k]].lastUsed
    requires forall w | 0 <= w < |lines| && lines[w].valid :: w in order
    ensures Ordered(lines, recent, order, epoch)
  {
  }

  lemma AgesMoved(lines: seq<CacheLine>, order: seq<nat>, i: nat, after: CacheLine, moved: seq<CacheLine>, next: seq<nat>)
    requires i < |order| == |next| && |moved| == |lines|
    requires forall j | 0 <= j < |order| :: order[j] < |lines| && next[j] < |lines| && lines[order[j]].lastUsed < after.lastUsed
    requires forall j, k | 0 <= j < k < |order| :: lines[order[j]].lastUsed > lines[order[k]].lastUsed
    requires forall j | 0 <= j < |order| :: moved[next[j]] == if j == 0 then after else lines[order[Source(i, j)]]
    ensures forall j, k | 0 <= j < k < |next| :: moved[next[j]].lastUsed > moved[next[k]].lastUsed
  {
    forall j, k | 0 <= j < k < |next| ensures moved[next[j]].lastUsed > moved[next[k]].lastUsed {
      if j > 0 { assert Source(i, j) < Source(i, k); }
    }
  }

  lemma EveryWayMoved(lines: seq<CacheLine>, moved: seq<CacheLine>, order: seq<nat>, next: seq<nat>, i: nat)
    requires i < |order| && |moved| == |lines| && next == MovedFirst(order, i) && order[i] < |lines|
    requires forall w | 0 <= w < |lines| && lines[w].valid :: w in order
    requires forall w | 0 <= w < |lines| && w != order[i] :: moved[w] == lines[w]
    ensures forall w | 0 <= w < |lines| && moved[w].valid :: w in next
  {
    forall w | 0 <= w < |lines| && moved[w].valid ensures w in next {
      if w == order[i] {
        assert next[0] == w;
      } else {
        var j :| 0 <= j < |order| && order[j] == w;
        assert next[if j < i then j + 1 else j] == w;
      }
    }
  }

  lemma OtherWays(lines: seq<CacheLine>, recent: seq<nat>, order: seq<nat>, epoch: nat, i: nat)
    requires Ordered(lines, recent, order, epoch) && i < |order|
    ensures forall j | 0 <= j < |order| && j != i :: order[j] != order[i]
  {
  }

  /** Touching a listed line moves its tag to the head of the list. */
  lemma TouchFirst(lines: seq<CacheLine>, recent: seq<nat>, order: seq<nat>, epoch: nat, way: nat, after: CacheLine)
    requires Ordered(lines, recent, order, epoch) && way < |lines| && lines[way].valid && after.valid
    requires after.tag == lines[way].tag && after.lastUsed > epoch
    ensures exists next :: Ordered(lines[way := after], Touched(recent, after.tag), next, after.lastUsed) && |next| == |order|
    ensures |Touched(recent, after.tag)| == |recent|
  {
    var i :| 0 <= i < |order| && order[i] == way;
    OrderMoved(lines, recent, order, epoch, i, after);
    TouchedListed(recent, |order|, i);
  }

  /* ---------- the bank ---------- */

  function Least(a: nat, b: nat): nat { if a <= b then a else b }

  /** While a refill for the set is pending one way is kept free for it. */
  function Listed(b: Bank, s: nat, touched: nat): nat
    requires b.config.Ok()
  {
    if b.pending.Some? && b.pending.value.refill.set_ == s then Least(b.config.ways - 1, touched)
    else Least(b.config.ways, touched)
  }

  ghost predicate SetLru(b: Bank, s: nat, recent: seq<nat>)
    requires BankShape(b) && s < b.config.sets
  {
    (exists order :: Ordered(b.sets[s].lines, recent, order, b.epoch) && |order| == Listed(b, s, |recent|)) &&
    (b.pending.Some? && b.pending.value.refill.set_ == s ==> b.pending.value.refill.tag !in recent[..Listed(b, s, |recent|)])
  }

  /** `recents[s]` lists the tags of set s by their latest touch. */
  ghost predicate LruOk(b: Bank, recents: seq<seq<nat>>) {
    BankShape(b) && b.config.lru && |recents| == b.config.sets &&
    forall s | 0 <= s < b.config.sets :: SetLru(b, s, recents[s])
  }

  function Note(recents: seq<seq<nat>>, s: nat, tag: nat): seq<seq<nat>>
    requires s < |recents|
  {
    recents[s := Touched(recents[s], tag)]
  }

  /** The tags listed for a set are those of its valid lines. */
  lemma ListedIsValid(b: Bank, s: nat, recent: seq<nat>, tag: nat)
    requires BankShape(b) && s < b.config.sets && SetLru(b, s, recent)
    ensures tag in recent[..Listed(b, s, |recent|)] <==>
            exists w :: 0 <= w < b.config.ways && LineAt(b, s, w).valid && LineAt(b, s, w).tag == tag
  {
    var m := Listed(b, s, |recent|);
    var order :| Ordered(b.sets[s].lines, recent, order, b.epoch) && |order| == m;
    OrderListsValid(b.sets[s].lines, recent, order, b.epoch, tag);
    hide Ordered, SetLru;
    assert forall w | 0 <= w < b.config.ways :: LineAt(b, s, w) == b.sets[s].lines[w];
  }

  lemma OrderListsValid(lines: seq<CacheLine>, recent: seq<nat>, order: seq<nat>, epoch: nat, tag: nat)
    requires Ordered(lines, recent, order, epoch)
    ensures tag in recent[..|order|] <==> exists w :: 0 <= w < |lines| && lines[w].valid && lines[w].tag == tag
  {
    if tag in recent[..|order|] {
      var i :| 0 <= i < |order| && recent[..|order|][i] == tag;
      assert lines[order[i]].valid && lines[order[i]].tag == tag;
    }
    if w :| 0 <= w < |lines| && lines[w].valid && lines[w].tag == tag {
      var i :| 0 <= i < |order| && order[i] == w;
      assert recent[..|order|][i] == tag;
    }
  }

  /** At rest a set holds exactly the min(ways, k) most recently touched of its k tags, and
      no two of its lines were last used together. */
  lemma MostRecentAreResident(b: Bank, recents: seq<seq<nat>>, s: nat, tag: nat)
    requires LruOk(b, recents) && b.pending.None? && s < b.config.sets
    ensures tag in recents[s][..Least(b.config.ways, |recents[s]|)] <==>
            exists w :: 0 <= w < b.config.ways && LineAt(b, s, w).valid && LineAt(b, s, w).tag == tag
    ensures forall v, w | 0 <= v < w < b.config.ways && LineAt(b, s, v).valid && LineAt(b, s, w).valid ::
      LineAt(b, s, v).lastUsed != LineAt(b, s, w).lastUsed
  {
    ListedIsValid(b, s, recents[s], tag);
    var order :| Ordered(b.sets[s].lines, recents[s], order, b.epoch);
    AgesDiffer(b.sets[s].lines, recents[s], order, b.epoch);
    hide Ordered, SetLru;
    assert forall w | 0 <= w < b.config.ways :: LineAt(b, s, w) == b.sets[s].lines[w];
  }

  lemma AgesDiffer(lines: seq<CacheLine>, recent: seq<nat>, order: seq<nat>, epoch: nat)
    requires Ordered(lines, recent, order, epoch)
    ensures forall v, w | 0 <= v < w < |lines| && lines[v].valid && lines[w].valid :: lines[v].lastUsed != lines[w].lastUsed
  {
    forall v, w | 0 <= v < w < |lines| && lines[v].valid && lines[w].valid ensures lines[v].lastUsed != lines[w].lastUsed {
      var i :| 0 <= i < |order| && order[i] == v;
      var k :| 0 <= k < |order| && order[k] == w;
    }
  }

  /** Sets with the same lines, and no refill between them, are listed alike. */
  lemma SameSetLru(b: Bank, r: Bank, s: nat, recent: seq<nat>)
    requires BankShape(b) && BankShape(r) && s < b.config.sets && r.config == b.config && SetLru(b, s, recent)
    requires r.sets[s].lines == b.sets[s].lines && r.epoch >= b.epoch
    requires (b.pending.Some? && b.pending.value.refill.set_ == s) == (r.pending.Some? && r.pending.value.refill.set_ == s)
    requires r.pending.Some? && r.pending.value.refill.set_ == s ==> r.pending.value.refill.tag == b.pending.value.refill.tag
    ensures SetLru(r, s, recent)
  {
    var order :| Ordered(b.sets[s].lines, recent, order, b.epoch) && |order| == Listed(b, s, |recent|);
    assert Ordered(r.sets[s].lines, recent, order, r.epoch);
  }

  lemma StartLines(b: Bank, addr: nat, kind: AccessKind)
    requires BankShape(b) && b.pending.None?
    ensures var r, set_ := StartPending(b, addr, kind), SetOf(b.config, addr);
            var way := r.pending.value.refill.way;
            r.epoch == b.epoch && way == SelectVictim(b, set_).way && r.pending.value.refill.set_ == set_ &&
            r.sets[set_].lines == b.sets[set_].lines[way := LineAt(b, set_, way).(valid := false, dirty := false)] &&
            forall s | 0 <= s < b.config.sets && s != set_ :: r.sets[s].lines == b.sets[s].lines
  {
    hide FirstInvalid, LeastRecent;
  }

  /** A step that changes one set, and keeps it listed, keeps them all. */
  lemma OneSetChanged(b: Bank, r: Bank, recents: seq<seq<nat>>, set_: nat, recent: seq<nat>)
    requires LruOk(b, recents) && BankShape(r) && r.config == b.config && r.epoch >= b.epoch && set_ < b.config.sets
    requires forall s | 0 <= s < b.config.sets && s != set_ :: r.sets[s].lines == b.sets[s].lines
    requires b.pending.Some? ==> b.pending.value.refill.set_ == set_
    requires r.pending.Some? ==> r.pending.value.refill.set_ == set_
    requires SetLru(r, set_, recent)
    ensures LruOk(r, recents[set_ := recent])
  {
    hide SetLru;
    var touched := recents[set_ := recent];
    forall s | 0 <= s < b.config.sets ensures SetLru(r, s, touched[s]) {
      if s != set_ { SameSetLru(b, r, s, recents[s]); }
    }
  }

  /** Starting a refill takes a free way, or the one least recently used. */
  lemma StartLru(b: Bank, recents: seq<seq<nat>>, addr: nat, kind: AccessKind)
    requires LruOk(b, recents) && b.pending.None? && Lookup(b, addr).None?
    ensures LruOk(StartPending(b, addr, kind), recents)
  {
    hide StartPending, SetLru, Ordered, SetOf, TagOf, Lookup;
    var r, set_ := StartPending(b, addr, kind), SetOf(b.config, addr);
    StartLines(b, addr, kind);
    StartedSet(b, r, set_, recents[set_]);
    NotListed(b, r, recents, addr);
    SetLruFrom(r, set_, recents[set_]);
    OneSetChanged(b, r, recents, set_, recents[set_]);
    assert recents[set_ := recents[set_]] == recents;
  }

  lemma SetLruFrom(r: Bank, s: nat, recent: seq<nat>)
    requires BankShape(r) && s < r.config.sets && r.pending.Some? && r.pending.value.refill.set_ == s
    requires exists order :: Ordered(r.sets[s].lines, recent, order, r.epoch) && |order| == Listed(r, s, |recent|)
    requires r.pending.value.refill.tag !in recent[..Listed(r, s, |recent|)]
    ensures SetLru(r, s, recent)
  {
  }

  /** The set a refill was started in. */
  lemma StartedSet(b: Bank, r: Bank, set_: nat, recent: seq<nat>)
    requires BankShape(b) && BankShape(r) && set_ < b.config.sets && b.config.lru && r.config == b.config && r.epoch == b.epoch
    requires b.pending.None? && SetLru(b, set_, recent) && r.pending.Some? && r.pending.value.refill.set_ == set_
    requires var way := SelectVictim(b, set_).way;
             r.sets[set_].lines == b.sets[set_].lines[way := LineAt(b, set_, way).(valid := false, dirty := false)]
    ensures exists order :: Ordered(r.sets[set_].lines, recent, order, r.epoch) && |order| == Listed(r, set_, |recent|)
  {
    var way, lines := SelectVictim(b, set_).way, b.sets[set_].lines;
    var order :| Ordered(lines, recent, order, b.epoch) && |order| == Least(b.config.ways, |recent|);
    FullIsAllValid(lines, recent, order, b.epoch);
    VictimIsFree(b, set_);
    hide SelectVictim, Ordered;
    if lines[way].valid {
      EvictOne(b, set_, recent, order, way, r);
    } else {
      InvalidLineIsFree(lines, recent, order, b.epoch, way, LineAt(b, set_, way).(valid := false, dirty := false));
    }
  }

  /** A valid victim means that no way is free. */
  lemma VictimIsFree(b: Bank, set_: nat)
    requires BankShape(b) && set_ < b.config.sets
    ensures b.sets[set_].lines[SelectVictim(b, set_).way].valid <==>
            forall w | 0 <= w < b.config.ways :: b.sets[set_].lines[w].valid
  {
    var way := SelectVictim(b, set_).way;
    if LineAt(b, set_, way).valid {
      forall w | 0 <= w < b.config.ways ensures b.sets[set_].lines[w].valid {
        assert LineAt(b, set_, w) == b.sets[set_].lines[w];
      }
    }
  }

  lemma EvictOne(b: Bank, set_: nat, recent: seq<nat>, order: seq<nat>, way: nat, r: Bank)
    requires BankShape(b) && BankShape(r) && set_ < b.config.sets && b.config.lru && r.config == b.config && r.epoch == b.epoch
    requires Ordered(b.sets[set_].lines, recent, order, b.epoch) && |order| == Least(b.config.ways, |recent|) == b.config.ways
    requires way == SelectVictim(b, set_).way && LineAt(b, set_, way).valid
    requires r.sets[set_].lines == b.sets[set_].lines[way := LineAt(b, set_, way).(valid := false, dirty := false)]
    requires r.pending.Some? && r.pending.value.refill.set_ == set_
    ensures exists next :: Ordered(r.sets[set_].lines, recent, next, r.epoch) && |next| == Listed(r, set_, |recent|)
  {
    var lines := b.sets[set_].lines;
    forall j | 0 <= j < |lines| && lines[j].valid ensures lines[way].lastUsed <= lines[j].lastUsed {
      assert LineAt(b, set_, way).lastUsed <= LineAt(b, set_, j).lastUsed;
    }
    EvictLast(lines, recent, order, b.epoch, way, LineAt(b, set_, way).(valid := false, dirty := false));
  }

  /** The line that missed is not among those listed. */
  lemma NotListed(b: Bank, r: Bank, recents: seq<seq<nat>>, addr: nat)
    requires LruOk(b, recents) && b.pending.None? && Lookup(b, addr).None?
    requires r.config == b.config && r.pending.Some? && r.pending.value.refill.set_ == SetOf(b.config, addr)
    ensures var recent := recents[SetOf(b.config, addr)];
            TagOf(b.config, addr) !in recent[..Listed(r, SetOf(b.config, addr), |recent|)]
  {
    var set_ := SetOf(b.config, addr);
    var recent := recents[set_];
    var m, n := Listed(r, set_, |recent|), Listed(b, set_, |recent|);
    ListedIsValid(b, set_, recent, TagOf(b.config, addr));
    LookupHits(b, addr);
    assert forall w | 0 <= w < b.config.ways && LineAt(b, set_, w).valid :: !HitAt(b, addr, w);
    ShorterPrefix(recent, m, n, TagOf(b.config, addr));
  }

  lemma ShorterPrefix(s: seq<nat>, m: nat, n: nat, t: nat)
    requires m <= n <= |s| && t !in s[..n]
    ensures t !in s[..m]
  {
    assert s[..m] == s[..n][..m];
  }

  lemma InstallLines(b: Bank, refill: PendingRefill, words: seq<Word4>)
    requires BankShape(b) && refill.set_ < b.config.sets && refill.way < b.config.ways && |words| == b.config.words
    ensures var r := Install(b, refill, words);
            r.epoch == b.epoch + 1 && r.config == b.config && r.pending == b.pending && BankShape(r) &&
            r.sets[refill.set_].lines == b.sets[refill.set_].lines[refill.way := CacheLine(true, false, refill.tag, words, b.epoch + 1)] &&
            forall s | 0 <= s < b.config.sets && s != refill.set_ :: r.sets[s].lines == b.sets[s].lines
  {
  }

  /** A completed refill is a touch of its line. */
  lemma InstallLru(b: Bank, recents: seq<seq<nat>>, words: seq<Word4>)
    requires LruOk(b, recents) && b.pending.Some? && |words| == b.config.words
    requires var p := b.pending.value.refill; !LineAt(b, p.set_, p.way).valid
    ensures var p := b.pending.value.refill;
            LruOk(Install(b.(pending := None), p, words), Note(recents, p.set_, p.tag))
  {
    hide Install, Touched, Ordered, SetLru;
    var p, idle := b.pending.value.refill, b.(pending := None);
    var r := Install(idle, p, words);
    InstallLines(idle, p, words);
    FilledSet(b, recents[p.set_], CacheLine(true, false, p.tag, words, b.epoch + 1));
    RestingSetLru(r, p.set_, Touched(recents[p.set_], p.tag));
    OneSetChanged(b, r, recents, p.set_, Touched(recents[p.set_], p.tag));
  }

  lemma RestingSetLru(r: Bank, s: nat, recent: seq<nat>)
    requires BankShape(r) && s < r.config.sets && r.pending.None?
    requires exists order :: Ordered(r.sets[s].lines, recent, order, r.epoch) && |order| == Least(r.config.ways, |recent|)
    ensures SetLru(r, s, recent)
  {
  }

  /** The refill's own set, with the way kept free for it filled. */
  lemma FilledSet(b: Bank, recent: seq<nat>, after: CacheLine)
    requires BankShape(b) && b.pending.Some? && SetLru(b, b.pending.value.refill.set_, recent)
    requires !LineAt(b, b.pending.value.refill.set_, b.pending.value.refill.way).valid
    requires after.valid && after.tag == b.pending.value.refill.tag && after.lastUsed == b.epoch + 1
    ensures var p, touched := b.pending.value.refill, Touched(recent, after.tag);
            exists next :: Ordered(b.sets[p.set_].lines[p.way := after], touched, next, b.epoch + 1) &&
                           |next| == Least(b.config.ways, |touched|)
  {
    var p := b.pending.value.refill;
    var lines := b.sets[p.set_].lines;
    var order :| Ordered(lines, recent, order, b.epoch) && |order| == Listed(b, p.set_, |recent|);
    FillFirst(lines, recent, order, b.epoch, p.way, after);
    OrderedFits(lines, recent, order, b.epoch);
    TouchedPrefix(recent, p.tag, |order|);
    if p.tag in recent { AlreadyTouched(recent, p.tag, |order|); }
    hide Touched, Ordered;
    assert |[p.way] + order| == Least(b.config.ways, |Touched(recent, after.tag)|);
  }

  lemma OrderedFits(lines: seq<CacheLine>, recent: seq<nat>, order: seq<nat>, epoch: nat)
    requires Ordered(lines, recent, order, epoch)
    ensures |order| <= |recent| && Distinct(recent)
  {
  }

  lemma AlreadyTouched(recent: seq<nat>, tag: nat, m: nat)
    requires m <= |recent| && tag in recent && tag !in recent[..m]
    ensures m < |recent|
  {
    assert recent[..|recent|] == recent;
  }

  /** Using a valid line at rest, changed or not, is a touch of it. */
  lemma UseLru(b: Bank, r: Bank, recents: seq<seq<nat>>, set_: nat, way: nat, after: CacheLine)
    requires LruOk(b, recents) && BankShape(r) && b.pending.None? && r.pending.None? && r.config == b.config
    requires set_ < b.config.sets && way < b.config.ways && r.epoch == b.epoch + 1
    requires LineAt(b, set_, way).valid && after.valid && after.tag == LineAt(b, set_, way).tag && after.lastUsed == r.epoch
    requires r.sets[set_].lines == b.sets[set_].lines[way := after]
    requires forall s | 0 <= s < b.config.sets && s != set_ :: r.sets[s].lines == b.sets[s].lines
    ensures LruOk(r, Note(recents, set_, after.tag))
  {
    var recent, lines := recents[set_], b.sets[set_].lines;
    assert SetLru(b, set_, recent);
    var order :| Ordered(lines, recent, order, b.epoch) && |order| == Least(b.config.ways, |recent|);
    TouchFirst(lines, recent, order, b.epoch, way, after);
    hide Ordered, Touched, SetLru;
    RestingSetLru(r, set_, Touched(recent, after.tag));
    OneSetChanged(b, r, recents, set_, Touched(recent, after.tag));
  }

  /* ---------- calls and runs ---------- */

  function NotedContinue(b: Bank, f: Fabric, recents: seq<seq<nat>>): seq<seq<nat>>
    requires BankShape(b) && FabricOk(f) && BurstsActive(b, f) && |recents| == b.config.sets
  {
    if b.pending.Some? && ContinuePending(b, f).reply.Got? then
      Note(recents, b.pending.value.refill.set_, b.pending.value.refill.tag)
    else recents
  }

  lemma SamePendingLru(b: Bank, r: Bank, recents: seq<seq<nat>>)
    requires LruOk(b, recents) && BankShape(r) && r.config == b.config && r.sets == b.sets && r.epoch == b.epoch
    requires b.pending.Some? && r.pending.Some? && r.pending.value.refill.set_ == b.pending.value.refill.set_
    requires r.pending.value.refill.tag == b.pending.value.refill.tag
    ensures LruOk(r, recents)
  {
    hide SetLru;
    forall s | 0 <= s < b.config.sets ensures SetLru(r, s, recents[s]) { SameSetLru(b, r, s, recents[s]); }
  }

  lemma RefillLru(b: Bank, f: Fabric, recents: seq<seq<nat>>)
    requires LruOk(b, recents) && b.pending.Some? && FabricOk(f)
    requires var p := b.pending.value.refill;
             !LineAt(b, p.set_, p.way).valid && (p.burst.Some? ==> BurstIndex(f, p.burst.value).Some?)
    ensures var p := b.pending.value.refill;
            var a := ContinueRefill(b.(pending := None), f, p);
            a.reply.Got? || a.bank.pending.Some? ==>
              LruOk(a.bank, if a.reply.Got? then Note(recents, p.set_, p.tag) else recents)
  {
    var p := b.pending.value.refill;
    var d := DriveBurst(f, p.burst, ReadWords(p.base, b.config.words, p.kind));
    hide DriveBurst, LruOk, Install;
    match d.outcome {
      case Blocked => SamePendingLru(b, b.(pending := Some(PendingLine(None, p.(burst := d.burst)))), recents);
      case TurnedAway =>
      case Broken(_) =>
      case Finished(response) =>
        if response.WordsRead? && |response.words| == b.config.words { InstallLru(b, recents, response.words); }
    }
  }

  lemma ContinueLru(b: Bank, f: Fabric, recents: seq<seq<nat>>)
    requires BankOk(b, f) && LruOk(b, recents)
    ensures FabricOk(f) && BurstsActive(b, f)
    ensures LruOk(ContinuePending(b, f).bank, NotedContinue(b, f, recents))
  {
    ContinueKeeps(b, f, 0);
    if b.pending.Some? {
      var p := b.pending.value;
      FreeWay(b, f);
      hide LruOk, BankOk, DriveBurst, ContinueRefill, View;
      if p.writeBack.None? {
        RefillLru(b, f, recents);
      } else {
        var wb := p.writeBack.value;
        var d := DriveBurst(f, wb.burst, WriteWords(wb.base, wb.words));
        DriveKeepsOk(f, wb.burst, WriteWords(wb.base, wb.words));
        if d.outcome.Blocked? {
          SamePendingLru(b, b.(pending := Some(PendingLine(Some(wb.(burst := d.burst)), p.refill))), recents);
        } else if d.outcome.Finished? {
          RefillLru(b, d.fabric, recents);
        }
      }
    }
  }

  lemma FreeWay(b: Bank, f: Fabric)
    requires BankOk(b, f) && b.pending.Some?
    ensures var p := b.pending.value.refill; !LineAt(b, p.set_, p.way).valid
  {
  }

  /** What the touches of a call add. */
  function NotedEnsure(b: Bank, f: Fabric, addr: nat, kind: AccessKind, recents: seq<seq<nat>>): seq<seq<nat>>
    requires BankShape(b) && FabricOk(f) && BurstsActive(b, f) && |recents| == b.config.sets
  {
    if Occupied(b, addr) then recents
    else
      var first, noted := ContinuePending(b, f), NotedContinue(b, f, recents);
      if first.reply.Got? && Lookup(first.bank, addr).None? then
        NotedContinue(StartPending(first.bank, addr, kind), first.fabric, noted)
      else noted
  }

  lemma EnsureLru(b: Bank, f: Fabric, addr: nat, kind: AccessKind, recents: seq<seq<nat>>)
    requires BankOk(b, f) && LruOk(b, recents) && CachesLine(b.config, LineBase(b.config, addr))
    ensures FabricOk(f) && BurstsActive(b, f) && |recents| == b.config.sets
    ensures LruOk(EnsureLine(b, f, addr, kind).bank, NotedEnsure(b, f, addr, kind, recents))
  {
    OkGivesActive(b, f);
    if !Occupied(b, addr) {
      ContinueKeeps(b, f, 0);
      ContinueLru(b, f, recents);
      var first, noted := ContinuePending(b, f), NotedContinue(b, f, recents);
      if first.reply.Got? && Lookup(first.bank, addr).None? {
        StartKeepsOk(first.bank, first.fabric, addr, kind);
        StartLru(first.bank, noted, addr, kind);
        ContinueLru(StartPending(first.bank, addr, kind), first.fabric, noted);
      }
    }
    hide LruOk, BankOk, ContinuePending, StartPending, Lookup, View, CachesLine, LineBase, NotedContinue;
  }

  lemma TouchLines(b: Bank, set_: nat, way: nat)
    requires BankShape(b) && set_ < b.config.sets && way < b.config.ways
    ensures var r := Touch(b, set_, way);
            r.config == b.config && r.pending == b.pending && r.epoch == b.epoch + 1 &&
            r.sets[set_].lines == b.sets[set_].lines[way := LineAt(b, set_, way).(lastUsed := b.epoch + 1)] &&
            forall s | 0 <= s < b.config.sets && s != set_ :: r.sets[s].lines == b.sets[s].lines
  {
  }

  lemma UpdateLines(b: Bank, op: StoreOp, way: nat, dirty: bool)
    requires BankShape(b) && way < b.config.ways && Fits(b.config, op)
    ensures var r, set_ := UpdateLine(b, op, way, dirty), SetOf(b.config, op.addr);
            r.config == b.config && r.pending == b.pending && r.epoch == b.epoch + 1 &&
            r.sets[set_].lines == b.sets[set_].lines[way := LineAt(r, set_, way)] &&
            LineAt(r, set_, way).valid && LineAt(r, set_, way).tag == TagOf(b.config, op.addr) &&
            LineAt(r, set_, way).lastUsed == r.epoch &&
            forall s | 0 <= s < b.config.sets && s != set_ :: r.sets[s].lines == b.sets[s].lines
  {
    hide Applied, SetOf, TagOf;
  }

  function NoteLine(c: Config, recents: seq<seq<nat>>, addr: nat): seq<seq<nat>>
    requires c.Ok() && |recents| == c.sets
  {
    Note(recents, SetOf(c, addr), TagOf(c, addr))
  }

  function NotedLoad(b: Bank, f: Fabric, addr: nat, kind: AccessKind, recents: seq<seq<nat>>): seq<seq<nat>>
    requires BankShape(b) && FabricOk(f) && BurstsActive(b, f) && |recents| == b.config.sets
  {
    var noted := NotedEnsure(b, f, addr, kind, recents);
    if EnsureLine(b, f, addr, kind).reply.Got? && |noted| == b.config.sets then NoteLine(b.config, noted, addr) else noted
  }

  lemma LoadLru(b: Bank, f: Fabric, addr: nat, kind: AccessKind, recents: seq<seq<nat>>)
    requires BankOk(b, f) && LruOk(b, recents) && CachesLine(b.config, LineBase(b.config, addr))
    ensures FabricOk(f) && BurstsActive(b, f) && |recents| == b.config.sets
    ensures LruOk(LoadLine(b, f, addr, kind).bank, NotedLoad(b, f, addr, kind, recents))
  {
    hide BankOk, EnsureLine, Lookup, View, CachesLine, LineBase, NotedEnsure, SetOf, TagOf, Touch, SetLru;
    EnsureLru(b, f, addr, kind, recents);
    EnsureKeeps(b, f, addr, kind, 0);
    var e, noted := EnsureLine(b, f, addr, kind), NotedEnsure(b, f, addr, kind, recents);
    if e.reply.Got? {
      var set_, way := SetOf(b.config, addr), e.reply.value;
      LookupHits(e.bank, addr);
      TouchLines(e.bank, set_, way);
      UseLru(e.bank, Touch(e.bank, set_, way), noted, set_, way, LineAt(e.bank, set_, way).(lastUsed := e.bank.epoch + 1));
    }
  }

  /** A store that lands in the bank touches its line. */
  lemma StoreHitLru(b: Bank, f: Fabric, op: StoreOp, way: nat, busy: bool, recents: seq<seq<nat>>)
    requires BankShape(b) && LruOk(b, recents) && b.pending.None? && HitAt(b, op.addr, way) && Fits(b.config, op) && op.width <= 4
    ensures var a := StoreHit(b, f, op, way, busy);
            LruOk(a.bank, if a.reply.Got? then NoteLine(b.config, recents, op.addr) else recents)
  {
    hide UpdateLine, CommitStore, SetOf, TagOf, SetLru;
    UpdateLines(b, op, way, b.config.writeBack);
    var r, set_ := UpdateLine(b, op, way, b.config.writeBack), SetOf(b.config, op.addr);
    UseLru(b, r, recents, set_, way, LineAt(r, set_, way));
  }

  function NotedStore(b: Bank, f: Fabric, op: StoreOp, busy: bool, recents: seq<seq<nat>>): seq<seq<nat>>
    requires BankShape(b) && FabricOk(f) && BurstsActive(b, f) && |recents| == b.config.sets
    requires op.width <= 4 && Fits(b.config, op)
  {
    if !Cacheable(b.config, op.addr) || Occupied(b, op.addr) then recents
    else
      var first, noted := ContinuePending(b, f), NotedContinue(b, f, recents);
      if !first.reply.Got? then noted
      else
        var hit := Lookup(first.bank, op.addr);
        if hit.Some? then
          (if StoreHit(first.bank, first.fabric, op, hit.value, busy).reply.Got?
           then NoteLine(b.config, noted, op.addr) else noted)
        else if !b.config.writeAllocate then noted
        else
          var started := StartPending(first.bank, op.addr, LoadAccess);
          var filled := NotedContinue(started, first.fabric, noted);
          var e := Refilled(first.bank, first.fabric, op.addr, LoadAccess);
          if e.reply.Got? && StoreHit(e.bank, e.fabric, op, e.reply.value, busy).reply.Got?
          then NoteLine(b.config, filled, op.addr) else filled
  }

  lemma StoreLru(b: Bank, f: Fabric, op: StoreOp, busy: bool, recents: seq<seq<nat>>)
    requires BankOk(b, f) && LruOk(b, recents) && op.width <= 4 && Fits(b.config, op)
    ensures FabricOk(f) && BurstsActive(b, f) && |recents| == b.config.sets
    ensures LruOk(StoreLine(b, f, op, busy).bank, NotedStore(b, f, op, busy, recents))
  {
    hide BankOk, Lookup, View, CachesLine, CachesAddress, LineBase, SetOf, TagOf, SetLru, ContinuePending, StoreHit,
         CommitStore, StartPending, Fits, Refilled, NotedContinue;
    OkGivesActive(b, f);
    if Cacheable(b.config, op.addr) && !Occupied(b, op.addr) {
      ContinueKeeps(b, f, 0);
      ContinueLru(b, f, recents);
      var first, noted := ContinuePending(b, f), NotedContinue(b, f, recents);
      if first.reply.Got? {
        var hit := Lookup(first.bank, op.addr);
        if hit.Some? {
          LookupHits(first.bank, op.addr);
          StoreHitLru(first.bank, first.fabric, op, hit.value, busy, noted);
        } else if b.config.writeAllocate {
          AllocateLru(first.bank, first.fabric, op, busy, noted);
        }
      }
    }
  }

  /** A store that misses and allocates. */
  lemma AllocateLru(b: Bank, f: Fabric, op: StoreOp, busy: bool, recents: seq<seq<nat>>)
    requires BankOk(b, f) && LruOk(b, recents) && op.width <= 4 && Fits(b.config, op) && b.pending.None?
    requires Lookup(b, op.addr).None? && CachesLine(b.config, LineBase(b.config, op.addr))
    ensures FabricOk(f)
    ensures BurstsActive(StartPending(b, op.addr, LoadAccess), f)
    ensures var e := Refilled(b, f, op.addr, LoadAccess);
            var filled := NotedContinue(StartPending(b, op.addr, LoadAccess), f, recents);
            LruOk(e.bank, filled) && e.bank.config == b.config &&
            (e.reply.Got? ==>
               var a := StoreHit(e.bank, e.fabric, op, e.reply.value, busy);
               LruOk(a.bank, if a.reply.Got? then NoteLine(b.config, filled, op.addr) else filled))
  {
    OkGivesActive(b, f);
    StartKeepsOk(b, f, op.addr, LoadAccess);
    StartLru(b, recents, op.addr, LoadAccess);
    var started := StartPending(b, op.addr, LoadAccess);
    ContinueLru(started, f, recents);
    RefilledKeeps(b, f, op.addr, LoadAccess, 0);
    var e := Refilled(b, f, op.addr, LoadAccess);
    var filled := NotedContinue(started, f, recents);
    hide BankOk, Lookup, View, CachesLine, LineBase, SetOf, TagOf, SetLru, ContinuePending, StoreHit, StartPending, Fits,
         NotedContinue;
    if e.reply.Got? {
      LookupHits(e.bank, op.addr);
      StoreHitLru(e.bank, e.fabric, op, e.reply.value, busy, filled);
    }
  }

  function NotedBy(p: Point, e: Event, recents: seq<seq<nat>>): seq<seq<nat>>
    requires BankShape(p.bank) && FabricOk(p.fabric) && BurstsActive(p.bank, p.fabric) && Allowed(p.bank.config, e)
    requires |recents| == p.bank.config.sets
  {
    match e
    case Clock => recents
    case Loading(addr, kind) => NotedLoad(p.bank, p.fabric, addr, kind, recents)
    case Storing(op, busy) => NotedStore(p.bank, p.fabric, op, busy, recents)
  }

  /** Every call, and every tick, keeps each set listed by its touches; at rest
      `MostRecentAreResident` then says which lines a set holds. */
  lemma EveryCallKeepsLru(p: Point, e: Event, recents: seq<seq<nat>>)
    requires PointOk(p) && LruOk(p.bank, recents) && Allowed(p.bank.config, e)
    ensures FabricOk(p.fabric) && BurstsActive(p.bank, p.fabric)
    ensures LruOk(After(p, e).bank, NotedBy(p, e, recents))
  {
    OkGivesActive(p.bank, p.fabric);
    hide LruOk, BankOk, LoadLine, StoreLine, NotedLoad, NotedStore, Tick;
    match e {
      case Clock =>
      case Loading(addr, kind) => LoadLru(p.bank, p.fabric, addr, kind, recents);
      case Storing(op, busy) => StoreLru(p.bank, p.fabric, op, busy, recents);
    }
  }

  /** A new bank has touched nothing. */
  lemma FreshLru(c: Config)
    requires c.Ok() && c.lru
    ensures LruOk(FreshBank(c), seq(c.sets, (s: nat) => []))
  {
    var b := FreshBank(c);
    forall s | 0 <= s < c.sets ensures SetLru(b, s, []) {
      assert Ordered(b.sets[s].lines, [], [], b.epoch);
    }
  }

  /** A bank and the touches of its run so far. */
  datatype Noted = Noted(point: Point, recents: seq<seq<nat>>)

  ghost function RunNoted(p: Point, events: seq<Event>, recents: seq<seq<nat>>): (n: Noted)
    requires PointOk(p) && LruOk(p.bank, recents) && forall k | 0 <= k < |events| :: Allowed(p.bank.config, events[k])
    ensures PointOk(n.point) && LruOk(n.point.bank, n.recents)
    decreases |events|
  {
    if events == [] then Noted(p, recents)
    else
      EveryCallKeepsOk(p, events[0]);
      EveryCallKeepsLru(p, events[0], recents);
      RunNoted(After(p, events[0]), events[1..], NotedBy(p, events[0], recents))
  }

  /** After any run, whenever nothing is pending, a line is in its set exactly when it is
      among the `ways` most recently touched of that set. */
  lemma MostRecentAfterEveryRun(p: Point, events: seq<Event>, recents: seq<seq<nat>>, s: nat, tag: nat)
    requires PointOk(p) && LruOk(p.bank, recents) && forall k | 0 <= k < |events| :: Allowed(p.bank.config, events[k])
    requires var n := RunNoted(p, events, recents); n.point.bank.pending.None? && s < n.point.bank.config.sets
    ensures var n := RunNoted(p, events, recents);
            var b := n.point.bank;
            tag in n.recents[s][..Least(b.config.ways, |n.recents[s]|)] <==>
            exists w :: 0 <= w < b.config.ways && LineAt(b, s, w).valid && LineAt(b, s, w).tag == tag
  {
    var n := RunNoted(p, events, recents);
    MostRecentAreResident(n.point.bank, n.recents, s, tag);
  }
}
