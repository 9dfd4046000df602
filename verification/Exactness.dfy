/**
 * `Safe` is not only enough. What an operation that is not safe does to the answers, query by query,
 * and when the damage can be seen.
 */
module Exactness {
  import opened Keys
  import opened OrderedMaps
  import opened MapFacts
  import opened Domains
  import opened Checkpoints
  import opened Chains
  import opened Histories
  import opened Timelines
  import opened Refinement
  import opened Queries
  import opened EventRuns
  import opened Pruning
  import opened Transparency
  import opened Reconciliations

  /** Every event leaves a mark: some count goes up by one with each event and ignores the time. */
  ghost predicate Tallied<S(!new), E(!new)>(d: Domain<S, E>, tally: S -> nat) {
    && (forall s, t :: tally(d.setTime(s, t)) == tally(s))
    && (forall e, s :: tally(d.apply(e, s)) == tally(s) + 1)
  }

  lemma {:induction false} ReplayTally<S(!new), E(!new)>(d: Domain<S, E>, tally: S -> nat, s: S, es: seq<Entry<E>>)
    requires Tallied(d, tally)
    ensures tally(Replay(d, s, es)) == tally(s) + |es|
  {
    if es != [] {
      ReplayTally(d, tally, s, es[..|es| - 1]);
    }
  }

  /** Leaving events out of a replay shows, unless there are none. */
  lemma OmissionShows<S(!new), E(!new)>(
      d: Domain<S, E>, tally: S -> nat, s: S, gap: seq<Entry<E>>, tail: seq<Entry<E>>, time: int)
    requires Tallied(d, tally)
    ensures d.setTime(Replay(d, s, tail), time) == d.setTime(Replay(d, s, gap + tail), time) <==> gap == []
  {
    ReplayTally(d, tally, s, tail);
    ReplayTally(d, tally, s, gap + tail);
    var x, y := Replay(d, s, tail), Replay(d, s, gap + tail);
    assert tally(d.setTime(x, time)) == tally(x) && tally(d.setTime(y, time)) == tally(y);
    if gap == [] {
      assert gap + tail == tail;
    }
  }

  /**
   * In any state: an advance leaves the answer of a query at or after the drop time alone exactly when
   * a retained checkpoint serves it or there are no gap events.
   */
  lemma AdvanceShows<S(!new), E(!new)>(d: Domain<S, E>, tally: S -> nat, h: History<S, E>, time: int, at: int)
    requires WellFormed(h) && Tallied(d, tally) && !Less(QueryKey(h, at), DropKey(h, time))
    requires SnapshotAt(d, h, at).Found?
    ensures SnapshotAt(d, Advance(h, time), at) == SnapshotAt(d, h, at)
       <==> Retained(h, time, QueryKey(h, at)) || GapEvents(h, time) == []
  {
    hide Tallied, SnapshotAt, Advance, GapEvents, QueryTail, Retained;
    if Retained(h, time, QueryKey(h, at)) {
      AdvanceKeepsServed(d, h, time, at);
    } else {
      AdvanceOmitsGap(d, h, time, at);
      var h' := Advance(h, time);
      OmissionShows(d, tally, h'.base, GapEvents(h, time), QueryTail(h', at), at);
    }
  }

  /**
   * Against the timeline, as if nothing had been pruned: after an advance such a query is answered
   * right exactly when a retained checkpoint serves it or there are no gap events.
   */
  lemma AdvanceExact<S(!new), E(!new)>(
      d: Domain<S, E>, tally: S -> nat, h: History<S, E>, t: Timeline<S, E>, time: int, at: int)
    requires Represents(d, h, t) && Lawful(d) && Tallied(d, tally)
    requires !Less(QueryKey(h, at), DropKey(h, time)) && SnapshotAt(d, h, at).Found?
    ensures StateAt(d, Prune(d, t, time), at) == StateAt(d, t, at)
    ensures SnapshotAt(d, Advance(h, time), at) == Found(StateAt(d, t, at))
       <==> Retained(h, time, QueryKey(h, at)) || GapEvents(h, time) == []
  {
    hide Lawful, Tallied, SnapshotAt, StateAt, Prune, Advance, GapEvents, Retained, Chain, Sorted, Less;
    QueryRefines(d, h, t, at);
    AdvanceShows(d, tally, h, time, at);
    PruneAnswers(d, h, t, time, at);
  }

  lemma PruneAnswers<S(!new), E(!new)>(d: Domain<S, E>, h: History<S, E>, t: Timeline<S, E>, time: int, at: int)
    requires Represents(d, h, t) && Lawful(d) && !Less(QueryKey(h, at), DropKey(h, time))
    ensures StateAt(d, Prune(d, t, time), at) == StateAt(d, t, at)
  {
    hide Lawful, StateAt, Chain, Sorted, StateBefore, From;
    PrunePruned(d, t, t, NoFloor, time);
    PrunedAnswer(d, t, Prune(d, t, time), Raise(NoFloor, DropKeyOf(t, time)), at);
  }

  /** No answer of the cache contradicts the timeline. */
  ghost predicate Faithful<S, E>(d: Domain<S, E>, h: History<S, E>, t: Timeline<S, E>)
    requires WellFormed(h) && Ordered(t)
  {
    forall at :: SnapshotAt(d, h, at).Found? ==> SnapshotAt(d, h, at) == Found(StateAt(d, t, at))
  }

  /** An advance leaves every answer right, the new base included, if and only if there are no gap events. */
  lemma AdvanceFaithful<S(!new), E(!new)>(
      d: Domain<S, E>, tally: S -> nat, h: History<S, E>, t: Timeline<S, E>, time: int)
    requires Represents(d, h, t) && Lawful(d) && Tallied(d, tally)
    ensures Faithful(d, Advance(h, time), Prune(d, t, time)) <==> GapEvents(h, time) == []
  {
    hide Lawful, Tallied, SnapshotAt, StateAt, Prune, Advance, GapEvents, Chain, Sorted, Faithful;
    if GapEvents(h, time) == [] {
      AdvanceRefines(d, h, t, time);
      RepresentsFaithful(d, Advance(h, time), Prune(d, t, time));
    } else {
      var at := BaseShows(d, tally, h, t, time);
      NotFaithful(d, Advance(h, time), Prune(d, t, time), at);
    }
  }

  lemma RepresentsFaithful<S(!new), E(!new)>(d: Domain<S, E>, h: History<S, E>, t: Timeline<S, E>)
    requires Represents(d, h, t) && Lawful(d)
    ensures Faithful(d, h, t)
  {
    hide Lawful, SnapshotAt, StateAt, Chain;
    forall at | SnapshotAt(d, h, at).Found?
      ensures SnapshotAt(d, h, at) == Found(StateAt(d, t, at))
    {
      QueryRefines(d, h, t, at);
    }
  }

  lemma NotFaithful<S, E>(d: Domain<S, E>, h: History<S, E>, t: Timeline<S, E>, at: int)
    requires WellFormed(h) && Ordered(t)
    requires SnapshotAt(d, h, at).Found? && SnapshotAt(d, h, at) != Found(StateAt(d, t, at))
    ensures !Faithful(d, h, t)
  {
    hide SnapshotAt, StateAt;
  }

  /** A query just before the drop time reads the new base, and there the gap shows. */
  lemma BaseShows<S(!new), E(!new)>(
      d: Domain<S, E>, tally: S -> nat, h: History<S, E>, t: Timeline<S, E>, time: int) returns (at: int)
    requires Represents(d, h, t) && Lawful(d) && Tallied(d, tally) && GapEvents(h, time) != []
    ensures SnapshotAt(d, Advance(h, time), at).Found?
    ensures SnapshotAt(d, Advance(h, time), at) != Found(StateAt(d, Prune(d, t, time), at))
  {
    hide Lawful, Tallied, Chain, Sorted, Replay, StateBefore, SnapshotAt, StateAt, From, Below, After, Latest;
    var drop, gap := DropKey(h, time), GapEvents(h, time);
    at := drop.time - 1;
    BaseAnswers(d, Advance(h, time), drop, h.events, h.checkpoints, at);
    BaseStateAt(d, Prune(d, t, time), drop, t.events, t.auths, at);
    StateBeforeAnswers(d, t, h.interval, drop, at);
    var base := Advance(h, time).base;
    OmissionShows(d, tally, base, gap, [], at);
    assert gap + [] == gap;
    ReplayNone(d, base);
  }

  lemma BaseAnswers<S, E>(
      d: Domain<S, E>, h: History<S, E>, drop: Key, events: seq<Entry<E>>, checkpoints: seq<Entry<S>>, at: int)
    requires WellFormed(h) && Sorted(events) && Sorted(checkpoints) && Less(QueryKey(h, at), drop)
    requires h.events == From(events, drop) && h.checkpoints == From(checkpoints, drop)
    ensures SnapshotAt(d, h, at) == Found(d.setTime(h.base, at))
  {
    hide Rank, Cut, Has, Sorted, From;
    NothingUnderFrom(events, drop, QueryKey(h, at));
    NothingUnderFrom(checkpoints, drop, QueryKey(h, at));
  }

  lemma BaseStateAt<S, E>(
      d: Domain<S, E>, t: Timeline<S, E>, drop: Key, events: seq<Entry<E>>, auths: seq<Entry<S>>, at: int)
    requires Ordered(t) && Sorted(events) && Sorted(auths) && Less(Key(at, t.id), drop)
    requires t.events == From(events, drop) && t.auths == From(auths, drop)
    ensures StateAt(d, t, at) == d.setTime(t.base, at)
  {
    hide Rank, Cut, Has, Sorted, From;
    NothingUnderFrom(events, drop, Key(at, t.id));
    NothingUnderFrom(auths, drop, Key(at, t.id));
  }

  /** The state before a key, from the last checkpoint before it. */
  lemma StateBeforeAnswers<S(!new), E(!new)>(d: Domain<S, E>, t: Timeline<S, E>, k: nat, key: Key, time: int)
    requires Ordered(t) && Lawful(d) && k > 0
    ensures var c := Chain(d, t.base, t.auths, t.events, k);
      Sorted(c) &&
      var latest := Latest(t.base, Below(c, key));
      d.setTime(StateBefore(d, t, key), time)
      == d.setTime(Replay(d, latest.state, After(Below(t.events, key), latest.bound)), time)
  {
    hide *;
    StateBeforeIs(d, t, key);
    OrderedParts(t);
    ChainAnswers(d, t.base, t.auths, t.events, k, key, time);
    var origin := Latest(t.base, Below(t.auths, key));
    var tail := After(Below(t.events, key), origin.bound);
    FoldIsReplay(d, origin.state, tail);
    SameSetTime(d, Fold(d, origin.state, tail), Replay(d, origin.state, tail), time);
  }

  lemma OrderedParts<S, E>(t: Timeline<S, E>)
    requires Ordered(t)
    ensures Sorted(t.auths) && Sorted(t.events)
  {
  }

  /** The queries past an event and short of the checkpoint that lies beyond it. */
  predicate InWindow<S, E>(d: Domain<S, E>, h: History<S, E>, e: E, time: int)
    requires WellFormed(h)
  {
    var later := After(h.checkpoints, Excluded(KeyOf(d, e)));
    later != [] && Less(KeyOf(d, e), QueryKey(h, time)) && Less(QueryKey(h, time), later[0].key)
  }

  /** The key right after a given one. */
  function Next(key: Key): Key {
    Key(key.time, key.id + 1)
  }

  /**
   * An event that is not safe, query by query: between the event and the next checkpoint the answer is
   * right exactly when the last snapshot happens to agree, time aside, with the true state just after
   * the event; every other answer is right, or a panic at a checkpoint key.
   */
  lemma EventExact<S(!new), E(!new)>(d: Domain<S, E>, h: History<S, E>, t: Timeline<S, E>, e: E, time: int)
    requires Represents(d, h, t) && Lawful(d) && !Safe(d, h, EventOp(e))
    ensures h.checkpoints != []
    ensures var h', t' := ApplyEvent(d, h, e), Record(d, t, e);
      if InWindow(d, h, e, time) then
        SnapshotAt(d, h', time) == Found(StateAt(d, t', time))
        <==> SameButTime(d, h.checkpoints[|h.checkpoints| - 1].value, StateBefore(d, t', Next(KeyOf(d, e))))
      else
        SnapshotAt(d, h', time)
        == if Has(h'.checkpoints, QueryKey(h, time)) then RangePanic else Found(StateAt(d, t', time))
  {
    hide *;
    UnsafeMeans(d, h, t, e);
    var ek, bound := KeyOf(d, e), QueryKey(h, time);
    Trichotomy(ek, bound);
    if InWindow(d, h, e, time) {
      UnsafeInWindow(d, h, t, e, time);
    } else if Less(bound, ek) {
      UnsafeBefore(d, h, t, e, time);
    } else if bound == ek {
      UnsafeAt(d, h, t, e, time);
    } else {
      UnsafePast(d, h, t, e, time);
    }
  }

  /** What makes an event unsafe, and what recording it does. */
  lemma UnsafeMeans<S, E>(d: Domain<S, E>, h: History<S, E>, t: Timeline<S, E>, e: E)
    requires Represents(d, h, t) && !Safe(d, h, EventOp(e))
    ensures WellFormed(h) && Ordered(t) && h.checkpoints != [] && h.id == t.id
    ensures From(h.events, KeyOf(d, e)) == [] && After(h.checkpoints, Excluded(KeyOf(d, e))) != []
    ensures Record(d, t, e) == t.(events := t.events + [Entry(KeyOf(d, e), e)])
    ensures var m := h.checkpoints;
      ApplyEvent(d, h, e) == h.(events := h.events + [Entry(KeyOf(d, e), e)], rooted := true,
                                checkpoints := Insert(m, KeyOf(d, e), m[|m| - 1].value))
  {
    hide Chain, Rank, Cut, Insert, Has, IsLatest, From, After, Sorted, AppendCheckpoint, Resume;
    var key, c := KeyOf(d, e), h.checkpoints;
    LatestMeansEnd(h.events, key, e);
    InsertAtEnd(h.events, key, e);
    AfterParts(c, key);
    PlantsLast(d, h.base, c, Insert(h.events, key, e), key, h.interval);
  }

  lemma UnsafeBefore<S(!new), E(!new)>(d: Domain<S, E>, h: History<S, E>, t: Timeline<S, E>, e: E, time: int)
    requires Represents(d, h, t) && Lawful(d) && !Safe(d, h, EventOp(e)) && Less(QueryKey(h, time), KeyOf(d, e))
    ensures SnapshotAt(d, ApplyEvent(d, h, e), time)
         == if Has(ApplyEvent(d, h, e).checkpoints, QueryKey(h, time)) then RangePanic
            else Found(StateAt(d, Record(d, t, e), time))
  {
    hide Chain, Lawful, Rank, Cut, Insert, Has, IsLatest, From, After, Below, UpTo, Sorted, Replay, Safe;
    hide ApplyEvent, Record;
    UnsafeMeans(d, h, t, e);
    var m := h.checkpoints;
    QueryRefines(d, h, t, time);
    InsertLeavesBelow(m, KeyOf(d, e), m[|m| - 1].value, QueryKey(h, time));
    BelowSnoc(h.events, Entry(KeyOf(d, e), e), QueryKey(h, time));
  }

  lemma UnsafeAt<S, E>(d: Domain<S, E>, h: History<S, E>, t: Timeline<S, E>, e: E, time: int)
    requires Represents(d, h, t) && !Safe(d, h, EventOp(e)) && QueryKey(h, time) == KeyOf(d, e)
    ensures SnapshotAt(d, ApplyEvent(d, h, e), time) == RangePanic
    ensures Has(ApplyEvent(d, h, e).checkpoints, QueryKey(h, time))
  {
    hide Chain, Rank, Cut, Insert, IsLatest, From, After, Below, UpTo, Sorted, Safe, ApplyEvent, Record;
    UnsafeMeans(d, h, t, e);
    var m := h.checkpoints;
    InsertContents(m, KeyOf(d, e), m[|m| - 1].value);
  }

  /** Checkpoints past a new latest event are authoritative snapshots. */
  lemma LaterInForce<S, E>(d: Domain<S, E>, h: History<S, E>, t: Timeline<S, E>, key: Key)
    requires Represents(d, h, t) && From(h.events, key) == []
    ensures forall a | a in t.auths :: a in h.checkpoints
    ensures forall c | c in After(h.checkpoints, Excluded(key)) :: c in t.auths && Less(key, c.key)
  {
    hide Chain, Rank, Cut, Has, Sorted, After, From;
    ChainKeys(d, t.base, t.auths, t.events, h.interval);
    AfterParts(h.checkpoints, key);
    forall c | c in After(h.checkpoints, Excluded(key))
      ensures c in t.auths
    {
      var n := Cut(h.checkpoints, Excluded(key));
      assert c in h.checkpoints[..n] + After(h.checkpoints, Excluded(key));
      NoneAbove(h.events, key, c.key);
    }
  }

  lemma UnsafePast<S(!new), E(!new)>(d: Domain<S, E>, h: History<S, E>, t: Timeline<S, E>, e: E, time: int)
    requires Represents(d, h, t) && Lawful(d) && !Safe(d, h, EventOp(e))
    requires Less(KeyOf(d, e), QueryKey(h, time)) && !InWindow(d, h, e, time)
    ensures SnapshotAt(d, ApplyEvent(d, h, e), time)
         == if Has(ApplyEvent(d, h, e).checkpoints, QueryKey(h, time)) then RangePanic
            else Found(StateAt(d, Record(d, t, e), time))
  {
    hide Chain, Lawful, Rank, Cut, Insert, Has, IsLatest, From, After, Below, UpTo, Sorted, Replay, Safe;
    hide ApplyEvent, Record, StateAt;
    UnsafeMeans(d, h, t, e);
    var m, key, bound := h.checkpoints, KeyOf(d, e), QueryKey(h, time);
    QueryRefines(d, h, t, time);
    LaterAnswersStay(d, h, e, time);
    var start := PlantedBefore(m, key, m[|m| - 1].value, bound);
    LaterInForce(d, h, t, key);
    assert After(m, Excluded(key))[0] in After(m, Excluded(key));
    NothingFrom(h.events, key);
    StatePast(d, t, e, key, After(m, Excluded(key))[0], time);
  }

  /** An event below the snapshot that serves a query is not seen by it. */
  lemma StatePast<S, E>(d: Domain<S, E>, t: Timeline<S, E>, e: E, key: Key, a: Entry<S>, time: int)
    requires Ordered(t) && Ordered(t.(events := t.events + [Entry(key, e)]))
    requires a in t.auths && Less(key, a.key) && !Less(Key(time, t.id), a.key)
    ensures StateAt(d, t.(events := t.events + [Entry(key, e)]), time) == StateAt(d, t, time)
  {
    hide Rank, Cut, Replay, Sorted, Below, After;
    var bound, events := Key(time, t.id), t.events + [Entry(key, e)];
    var low := UpTo(t.auths, bound);
    ServesAtLeast(t.auths, a, bound);
    assert events[|events| - 1] == Entry(key, e);
    LastBefore(t.events, Entry(key, e));
    NothingPast(events, low[|low| - 1].key, bound);
    NothingPast(t.events, low[|low| - 1].key, bound);
  }

  /** In the window the timeline answers the state just after the event. */
  lemma UnsafeInWindow<S(!new), E(!new)>(d: Domain<S, E>, h: History<S, E>, t: Timeline<S, E>, e: E, time: int)
    requires Represents(d, h, t) && Lawful(d) && !Safe(d, h, EventOp(e)) && InWindow(d, h, e, time)
    ensures h.checkpoints != []
    ensures SnapshotAt(d, ApplyEvent(d, h, e), time) == Found(StateAt(d, Record(d, t, e), time))
       <==> SameButTime(d, h.checkpoints[|h.checkpoints| - 1].value,
                        StateBefore(d, Record(d, t, e), Next(KeyOf(d, e))))
  {
    hide Chain, Lawful, Rank, Cut, Insert, Has, IsLatest, From, Below, UpTo, After, Sorted, Replay, Safe;
    hide ApplyEvent, Record, StateAt, StateBefore, SnapshotAt, SameButTime;
    UnsafeMeans(d, h, t, e);
    var m, key, t' := h.checkpoints, KeyOf(d, e), Record(d, t, e);
    EventBehindCheckpoint(d, h, e, time);
    LaterInForce(d, h, t, key);
    WindowBare(m, t.auths, key, QueryKey(h, time));
    WindowState(d, t', key, time);
    SameSetTimeExact(d, m[|m| - 1].value, StateBefore(d, t', Next(key)), time);
  }

  lemma SameSetTimeExact<S(!new), E(!new)>(d: Domain<S, E>, s: S, t: S, time: int)
    requires Lawful(d)
    ensures d.setTime(s, time) == d.setTime(t, time) <==> SameButTime(d, s, t)
  {
    assert d.setTime(d.setTime(s, time), 0) == d.setTime(s, 0);
    assert d.setTime(d.setTime(t, time), 0) == d.setTime(t, 0);
    if SameButTime(d, s, t) {
      SameSetTime(d, s, t, time);
    }
  }

  lemma WindowBare<S>(m: seq<Entry<S>>, auths: seq<Entry<S>>, key: Key, bound: Key)
    requires Sorted(m) && Sorted(auths) && (forall a | a in auths :: a in m) && Less(key, bound)
    requires After(m, Excluded(key)) != [] && Less(bound, After(m, Excluded(key))[0].key)
    ensures UpTo(auths, bound) == UpTo(auths, key)
  {
    hide Cut;
    var n := Cut(auths, Excluded(key));
    forall i | n <= i < |auths|
      ensures Beyond(Excluded(bound), auths[i].key)
    {
      assert Beyond(Excluded(key), auths[i].key) && auths[i] in m;
      PastFirst(m, key, auths[i]);
    }
    CutIs(auths, Excluded(bound), n);
  }

  lemma WindowState<S(!new), E(!new)>(d: Domain<S, E>, t: Timeline<S, E>, key: Key, time: int)
    requires Ordered(t) && Lawful(d) && Less(key, Key(time, t.id))
    requires t.events != [] && t.events[|t.events| - 1].key == key
    requires UpTo(t.auths, Key(time, t.id)) == UpTo(t.auths, key)
    ensures StateAt(d, t, time) == d.setTime(StateBefore(d, t, Next(key)), time)
  {
    hide Rank, Cut, Replay, Fold, Sorted, Below, After, UpTo, Lawful;
    BelowSuccessor(t.auths, key);
    AllBelow(t.events, Next(key));
    AllBelow(t.events, Key(time, t.id));
    var origin := Latest(t.base, UpTo(t.auths, key));
    var tail := After(t.events, origin.bound);
    FoldIsReplay(d, origin.state, tail);
    SameSetTime(d, Fold(d, origin.state, tail), Replay(d, origin.state, tail), time);
  }

  /**
   * In one statement: an event leaves every answer right if and only if it is safe, or no query falls
   * between it and the next checkpoint, or the last snapshot agrees with the true state after the event.
   */
  lemma EventFaithful<S(!new), E(!new)>(d: Domain<S, E>, h: History<S, E>, t: Timeline<S, E>, e: E)
    requires Represents(d, h, t) && Lawful(d)
    ensures !Safe(d, h, EventOp(e)) ==> h.checkpoints != []
    ensures Faithful(d, ApplyEvent(d, h, e), Record(d, t, e))
       <==> (Safe(d, h, EventOp(e)) || (forall time :: !InWindow(d, h, e, time))
             || SameButTime(d, h.checkpoints[|h.checkpoints| - 1].value,
                            StateBefore(d, Record(d, t, e), Next(KeyOf(d, e)))))
  {
    hide Lawful, SnapshotAt, StateAt, Record, ApplyEvent, Chain, Sorted, Safe, Faithful, InWindow, StateBefore;
    hide SameButTime, Has;
    var h', t' := ApplyEvent(d, h, e), Record(d, t, e);
    if Safe(d, h, EventOp(e)) {
      EventRefines(d, h, t, e);
      RepresentsFaithful(d, h', t');
    } else {
      UnsafeMeans(d, h, t, e);
      var last, truth := h.checkpoints[|h.checkpoints| - 1].value, StateBefore(d, t', Next(KeyOf(d, e)));
      if SameButTime(d, last, truth) || forall time :: !InWindow(d, h, e, time) {
        forall at | SnapshotAt(d, h', at).Found?
          ensures SnapshotAt(d, h', at) == Found(StateAt(d, t', at))
        {
          EventExact(d, h, t, e, at);
        }
        IsFaithful(d, h', t');
      } else {
        var at :| InWindow(d, h, e, at);
        EventExact(d, h, t, e, at);
        WindowAnswers(d, h, t, e, at);
        NotFaithful(d, h', t', at);
      }
    }
  }

  lemma IsFaithful<S, E>(d: Domain<S, E>, h: History<S, E>, t: Timeline<S, E>)
    requires WellFormed(h) && Ordered(t)
    requires forall at :: SnapshotAt(d, h, at).Found? ==> SnapshotAt(d, h, at) == Found(StateAt(d, t, at))
    ensures Faithful(d, h, t)
  {
  }

  lemma WindowAnswers<S, E>(d: Domain<S, E>, h: History<S, E>, t: Timeline<S, E>, e: E, time: int)
    requires Represents(d, h, t) && !Safe(d, h, EventOp(e)) && InWindow(d, h, e, time)
    ensures SnapshotAt(d, ApplyEvent(d, h, e), time).Found?
  {
    hide SnapshotAt, ApplyEvent, Chain, Sorted, Safe, After, From;
    UnsafeMeans(d, h, t, e);
    EventBehindCheckpoint(d, h, e, time);
  }

  /**
   * The documented query bound, on answers: after any arrival of events, a found answer is the replay of
   * the events with a time below the query time if and only if no stored event at the query time has an
   * id below the snapshot id.
   */
  lemma EventRunBoundExact<S(!new), E(!new)>(
      d: Domain<S, E>, tally: S -> nat, s: S, now: int, horizon: int, k: nat, ops: seq<Op<S, E>>, time: int)
    requires k > 0 && OnlyEvents(ops) && Lawful(d) && Tallied(d, tally)
    ensures var h := RunHistory(d, New<S, E>(d, s, now, horizon, k), ops);
      SnapshotAt(d, h, time).Found? ==>
        (SnapshotAt(d, h, time) == Found(d.setTime(Replay(d, h.base, Below(h.events, Key(time, 0))), time))
         <==> forall x | x in h.events :: !(x.key.time == time && x.key.id < h.id))
  {
    hide New, Rank, Has, Replay, Lawful, Tallied, Sorted, SnapshotAt, RunHistory, Below;
    var h := RunHistory(d, New<S, E>(d, s, now, horizon, k), ops);
    EventRunQuery(d, s, now, horizon, k, ops, time);
    Canonical(d, s, now, horizon, k, ops);
    NewFields<S, E>(d, s, now, horizon, k);
    RunKeepsInterval(d, New<S, E>(d, s, now, horizon, k), ops);
    var bound := Key(time, h.id);
    QueryBoundExact(h.events, time, h.id);
    BelowBelow(h.events, Key(time, 0), bound);
    MoreShows(d, tally, h.base, Below(h.events, bound), Key(time, 0), time);
  }

  /** Cutting a replay short at a key shows, unless nothing is cut off. */
  lemma MoreShows<S(!new), E(!new)>(
      d: Domain<S, E>, tally: S -> nat, s: S, es: seq<Entry<E>>, key: Key, time: int)
    requires Tallied(d, tally) && Sorted(es)
    ensures d.setTime(Replay(d, s, es), time) == d.setTime(Replay(d, s, Below(es, key)), time)
       <==> es == Below(es, key)
  {
    hide Tallied, Replay, Sorted, Rank, Below;
    var low := Below(es, key);
    if d.setTime(Replay(d, s, es), time) == d.setTime(Replay(d, s, low), time) {
      SameTally(d, tally, Replay(d, s, es), Replay(d, s, low), time);
    }
    ReplayTally(d, tally, s, es);
    ReplayTally(d, tally, s, low);
    BelowIsPrefix(es, key);
  }

  lemma SameTally<S(!new), E(!new)>(d: Domain<S, E>, tally: S -> nat, s: S, t: S, time: int)
    requires Tallied(d, tally) && d.setTime(s, time) == d.setTime(t, time)
    ensures tally(s) == tally(t)
  {
    assert tally(d.setTime(s, time)) == tally(s) && tally(d.setTime(t, time)) == tally(t);
  }
}
