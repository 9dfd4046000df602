/** Concrete runs of the test types that show where the guarantees end, each from a fresh history. */
module Witnesses {
  import opened Keys
  import opened OrderedMaps
  import opened MapFacts
  import opened Domains
  import opened Histories
  import opened Timelines
  import opened Refinement
  import opened EventRuns
  import opened Ledger
  import opened Overrides
  import opened Reconciliations
  import opened Commutation
  import opened Workers
  import opened Fixture

  /** Cutting a map of at most one entry. */
  lemma SmallMap<V>(x: Entry<V>, key: Key)
    ensures Sorted([x]) && Sorted<V>([])
    ensures Below([x], key) == if Less(x.key, key) then [x] else []
    ensures From([x], key) == if Less(x.key, key) then [] else [x]
    ensures UpTo([x], key) == if Less(key, x.key) then [] else [x]
    ensures After([x], Excluded(key)) == if Less(key, x.key) then [x] else []
    ensures Has([x], key) <==> x.key == key
    ensures Below<V>([], key) == From<V>([], key) == UpTo<V>([], key) == After<V>([], Excluded(key)) == []
    ensures !Has<V>([], key)
    ensures After([x], Unbounded) == [x]
  {
  }

  const EARLY_EVENT: TestEvent := Positive(1, 5, 5, 3)
  const LATER_SNAPSHOT: TestSnapshot := TestSnapshot(1, 10, [], 100)
  const EMPTY_SNAPSHOT: TestSnapshot := TestSnapshot(1, 0, [], 0)

  /**
   * The unsafe case happens: after a snapshot with sum 100 at time 10 and then an event of value 3 at time
   * 5, a query at time 7 answers 100. The naive reading of the same run answers 3.
   */
  lemma SnapshotAheadOfEvents(horizon: int)
    ensures var d, ops := TEST_DOMAIN, [SnapshotOp(LATER_SNAPSHOT), EventOp(EARLY_EVENT)];
      var h, t := RunHistory(d, Fresh(horizon), ops), Run(d, Start(d, EMPTY_SNAPSHOT, 0, horizon), ops);
      && !SafeRun(d, Fresh(horizon), ops)
      && SnapshotAt(d, h, 7) == Found(TestSnapshot(1, 7, [], 100))
      && StateAt(d, t, 7) == TestSnapshot(1, 7, [3], 3)
      && SnapshotAt(d, h, 7) != Found(StateAt(d, t, 7))
  {
    hide SnapshotAt, StateAt, ApplySnapshot, ApplyEvent, Record, Override, RunHistory, Run, Safe;
    var snapshot: Op<TestSnapshot, TestEvent> := SnapshotOp(LATER_SNAPSHOT);
    var early: Op<TestSnapshot, TestEvent> := EventOp(EARLY_EVENT);
    var h, t := Fresh(horizon), Start<TestSnapshot, TestEvent>(TEST_DOMAIN, EMPTY_SNAPSHOT, 0, horizon);
    RunTwo(TEST_DOMAIN, h, snapshot, early);
    assert [snapshot, early][..1] == [snapshot];
    EventBehindSnapshot(h);
    NaiveRunTwo(TEST_DOMAIN, t, snapshot, early);
    EventBehindSnapshotNaive(t);
  }

  lemma NaiveRunTwo<S, E>(d: Domain<S, E>, t: Timeline<S, E>, a: Op<S, E>, b: Op<S, E>)
    requires Ordered(t)
    ensures Run(d, t, [a, b]) == Perform(d, Perform(d, t, a), b)
  {
    hide Perform;
    assert [a, b][..1] == [a] && [a][..0] == [];
    assert Run(d, t, [a]) == Perform(d, t, a);
  }

  lemma EventBehindSnapshot(h: History<TestSnapshot, TestEvent>)
    requires WellFormed(h) && h.id == 1 && h.events == [] && h.checkpoints == []
    ensures var h' := ApplySnapshot(TEST_DOMAIN, h, LATER_SNAPSHOT);
      && !Safe(TEST_DOMAIN, h', EventOp(EARLY_EVENT))
      && SnapshotAt(TEST_DOMAIN, ApplyEvent(TEST_DOMAIN, h', EARLY_EVENT), 7) == Found(LATER_SNAPSHOT.(time := 7))
  {
    hide Rank, Cut, Has, Below, From, After, UpTo, Insert, SnapshotAt, ApplyEvent, ApplySnapshot, IsLatest;
    SmallMap(Entry(Key(10, 1), LATER_SNAPSHOT), Key(5, 5));
    SmallMap(Entry(Key(5, 5), EARLY_EVENT), Key(5, 5));
    LoneSnapshot(h);
    var h' := ApplySnapshot(TEST_DOMAIN, h, LATER_SNAPSHOT);
    EventBehindCheckpoint(TEST_DOMAIN, h', EARLY_EVENT, 7);
    LatestMeansEnd(h'.events, Key(5, 5), EARLY_EVENT);
  }

  lemma EventBehindSnapshotNaive(t: Timeline<TestSnapshot, TestEvent>)
    requires Ordered(t) && t.id == 1 && t.base == EMPTY_SNAPSHOT && t.auths == [] && t.events == []
    ensures StateAt(TEST_DOMAIN, Record(TEST_DOMAIN, Override(TEST_DOMAIN, t, LATER_SNAPSHOT), EARLY_EVENT), 7)
         == TestSnapshot(1, 7, [3], 3)
  {
    hide Rank, Cut, Has, Below, From, After, UpTo, Insert, IsLatest, StateAt;
    var x, y := Entry(Key(10, 1), LATER_SNAPSHOT), Entry(Key(5, 5), EARLY_EVENT);
    var t1 := Override(TEST_DOMAIN, t, LATER_SNAPSHOT);
    assert t1.auths == [x] by { SmallMap(x, Key(10, 1)); }
    assert KeyOf(TEST_DOMAIN, EARLY_EVENT) == Key(5, 5);
    var t2 := Record(TEST_DOMAIN, t1, EARLY_EVENT);
    assert t2 == t1.(events := [y]) by {
      SmallMap(y, Key(5, 5));
      LatestMeansEnd(t.events, Key(5, 5), EARLY_EVENT);
      InsertAtEnd(t.events, Key(5, 5), EARLY_EVENT);
    }
    StateOfTwo(t2);
  }

  lemma StateOfTwo(t: Timeline<TestSnapshot, TestEvent>)
    requires t.id == 1 && t.base == EMPTY_SNAPSHOT
    requires t.auths == [Entry(Key(10, 1), LATER_SNAPSHOT)] && t.events == [Entry(Key(5, 5), EARLY_EVENT)]
    ensures Ordered(t) && StateAt(TEST_DOMAIN, t, 7) == TestSnapshot(1, 7, [3], 3)
  {
    hide Rank, Cut, Has, Below, From, After, UpTo, Replay;
    SmallMap(t.auths[0], Key(7, 1));
    SmallMap(t.events[0], Key(7, 1));
    ReplaySingle(EMPTY_SNAPSHOT, t.events[0]);
    assert [] + [AsI16(3)] == [3];
  }

  lemma ReplaySingle(s: TestSnapshot, y: Entry<TestEvent>)
    ensures Replay(TEST_DOMAIN, s, [y]) == ApplyTo(y.value, s)
  {
  }

  const LAST_EVENT: TestEvent := Positive(1, 20, 20, 7)

  /** A fresh history of the test entity. */
  function Fresh(horizon: int): (h: History<TestSnapshot, TestEvent>)
    ensures WellFormed(h)
  {
    New(TEST_DOMAIN, EMPTY_SNAPSHOT, 0, horizon, CHECKPOINT_INTERVAL)
  }

  lemma RunTwo<S, E>(d: Domain<S, E>, h: History<S, E>, a: Op<S, E>, b: Op<S, E>)
    requires WellFormed(h)
    ensures RunHistory(d, h, [a]) == Do(d, h, a)
    ensures RunHistory(d, h, [a, b]) == Do(d, Do(d, h, a), b)
  {
    hide Do;
    RunSnoc(d, h, [], a);
    RunSnoc(d, h, [a], b);
    assert [] + [a] == [a] && [a] + [b] == [a, b];
  }

  lemma RunThree<S, E>(d: Domain<S, E>, h: History<S, E>, a: Op<S, E>, b: Op<S, E>, c: Op<S, E>)
    requires WellFormed(h)
    ensures RunHistory(d, h, [a, b, c]) == Do(d, Do(d, Do(d, h, a), b), c)
  {
    hide Do;
    RunTwo(d, h, a, b);
    RunSnoc(d, h, [a, b], c);
    assert [a, b] + [c] == [a, b, c];
  }

  /** One event in a fresh history. */
  lemma OneEvent(horizon: int, s: TestSnapshot, e: TestEvent)
    ensures var h := Open<TestSnapshot, TestEvent>(TEST_DOMAIN, horizon, s);
      ApplyEvent(TEST_DOMAIN, h, e) == h.(events := [Entry(KeyOf(TEST_DOMAIN, e), e)], rooted := true)
      && h.checkpoints == [] && h.id == s.id && h.now == 0 && h.horizon == horizon
  {
    hide Rank, Cut, Has, Fold, Insert, From, Below, After, UpTo, Sorted, Resume;
    var y := Entry(KeyOf(TEST_DOMAIN, e), e);
    SmallMap(y, y.key);
    var h := Open<TestSnapshot, TestEvent>(TEST_DOMAIN, horizon, s);
    InsertAtEnd(h.events, y.key, e);
    assert h.events + [y] == [y];
  }

  /** Cutting a map of two entries at a key strictly between them. */
  lemma CutBetween<V>(x: Entry<V>, y: Entry<V>, key: Key)
    requires Less(x.key, key) && Less(key, y.key)
    ensures Sorted([x, y]) && !Has([x, y], key)
    ensures Below([x, y], key) == [x] && After([x, y], Excluded(key)) == [y]
  {
    RankIs([x, y], key, 1);
    CutIs([x, y], Excluded(key), 1);
  }

  /** A query at exactly the time of an installed snapshot, with an event stored: the worker panics. */
  lemma QueryPanics(horizon: int)
    ensures var ops := [EventOp(LAST_EVENT), SnapshotOp(LATER_SNAPSHOT)];
      SnapshotAt(TEST_DOMAIN, RunHistory(TEST_DOMAIN, Fresh(horizon), ops), 10) == RangePanic
  {
    hide SnapshotAt, ApplySnapshot, ApplyEvent, RunHistory;
    RunTwo(TEST_DOMAIN, Fresh(horizon), EventOp(LAST_EVENT), SnapshotOp(LATER_SNAPSHOT));
    OneEvent(horizon, EMPTY_SNAPSHOT, LAST_EVENT);
    QueryAtSnapshotTime(TEST_DOMAIN, ApplyEvent(TEST_DOMAIN, Fresh(horizon), LAST_EVENT), LATER_SNAPSHOT);
  }

  /** It panics even when an advance has emptied the event map since: the drop time here is 7. */
  lemma QueryPanicsWhenEmptied(horizon: int)
    ensures var h := RunHistory(TEST_DOMAIN, Fresh(horizon),
                                [EventOp(EARLY_EVENT), SnapshotOp(LATER_SNAPSHOT), AdvanceOp(horizon + 7)]);
      h.events == [] && SnapshotAt(TEST_DOMAIN, h, 10) == RangePanic
  {
    hide ApplySnapshot, ApplyEvent, RunHistory, Rank, Cut, Has, From, Below, After, UpTo, Sorted;
    RunThree(TEST_DOMAIN, Fresh(horizon), EventOp(EARLY_EVENT), SnapshotOp(LATER_SNAPSHOT), AdvanceOp(horizon + 7));
    OneEvent(horizon, EMPTY_SNAPSHOT, EARLY_EVENT);
    var h1 := ApplyEvent(TEST_DOMAIN, Fresh(horizon), EARLY_EVENT);
    LoneSnapshot(h1);
    SmallMap(Entry(Key(5, 5), EARLY_EVENT), Key(7, 0));
    SmallMap(Entry(Key(10, 1), LATER_SNAPSHOT), Key(7, 0));
    SmallMap(Entry(Key(10, 1), LATER_SNAPSHOT), Key(10, 1));
  }

  /** The snapshot becomes the one checkpoint of a history that has none and no event after it. */
  lemma LoneSnapshot(h: History<TestSnapshot, TestEvent>)
    requires WellFormed(h) && h.id == 1 && h.checkpoints == []
    requires h.events != [] ==> !Less(Key(10, 1), h.events[|h.events| - 1].key)
    ensures ApplySnapshot(TEST_DOMAIN, h, LATER_SNAPSHOT) == h.(checkpoints := [Entry(Key(10, 1), LATER_SNAPSHOT)])
  {
    hide Resume, Rank, Cut, Has, From, Below, After, UpTo, Sorted;
    InstallOnNothing(TEST_DOMAIN, h, LATER_SNAPSHOT);
    SmallMap(Entry(Key(10, 1), LATER_SNAPSHOT), Key(10, 1));
  }

  /** A new latest event on the key of an installed snapshot is charged 28 bytes too much. */
  lemma LedgerDrifts(horizon: int)
    ensures var d, h, ops := TEST_DOMAIN, Fresh(horizon), [SnapshotOp(LATER_SNAPSHOT), EventOp(Positive(1, 10, 1, 3))];
      && !NeverOverwrites(d, h, ops)
      && RunDelta(d, h, ops) == Footprint(d, RunHistory(d, h, ops)) - Footprint(d, h) + 28
  {
    hide ApplySnapshot, ApplyEvent, RunHistory, RunDelta, Footprint, Overwrites, Rank, Sorted;
    var e := Positive(1, 10, 1, 3);
    var s: Op<TestSnapshot, TestEvent> := SnapshotOp(LATER_SNAPSHOT);
    var h, ops := Fresh(horizon), [s, EventOp(e)];
    RunTwo(TEST_DOMAIN, h, s, EventOp(e));
    LoneSnapshot(h);
    LedgerExact(TEST_DOMAIN, h, ops);
    LedgerExact(TEST_DOMAIN, h, [s]);
    assert ops[..1] == [s] && [s][..0] == [];
    OverwritesLone(e);
  }

  lemma OverwritesLone(e: TestEvent)
    requires KeyOf(TEST_DOMAIN, e) == Key(10, 1)
    ensures var m := [Entry(Key(10, 1), LATER_SNAPSHOT)];
      && Sorted(m) && Sorted<TestEvent>([]) && Overwrites(TEST_DOMAIN, m, [], e)
      && OverwrittenBytes(TEST_DOMAIN, m, [], e) == 28
  {
    hide Rank, Cut, Has, Insert, From, Below, After, UpTo;
    var y, m := Entry(Key(10, 1), e), [Entry(Key(10, 1), LATER_SNAPSHOT)];
    SmallMap(y, Key(10, 1));
    SmallMap(m[0], Key(10, 1));
    InsertAtEnd<TestEvent>([], Key(10, 1), e);
    assert [] + [y] == [y];
    RankIs(m, Key(10, 1), 0);
  }

  /** An event at the query time whose id is below the snapshot's is part of the answer. */
  lemma SameTimeIncluded(horizon: int)
    ensures SnapshotAt(TEST_DOMAIN, RunHistory(TEST_DOMAIN, Fresh(horizon), [EventOp(Positive(1, 0, 0, 3))]), 0)
         == Found(TestSnapshot(1, 0, [3], 3))
  {
    hide SnapshotAt, ApplyEvent, RunHistory, Rank, Cut, Has, Below, From, After, UpTo, Insert, Replay, Sorted, Lawful;
    var e := Positive(1, 0, 0, 3);
    var op: Op<TestSnapshot, TestEvent> := EventOp(e);
    TestDomainLawful();
    EventRunQuery(TEST_DOMAIN, EMPTY_SNAPSHOT, 0, horizon, CHECKPOINT_INTERVAL, [op], 0);
    RunTwo(TEST_DOMAIN, Fresh(horizon), op, op);
    OneEvent(horizon, EMPTY_SNAPSHOT, e);
    SmallMap(Entry(Key(0, 0), e), Key(0, 1));
    ReplaySingle(EMPTY_SNAPSHOT, Entry(Key(0, 0), e));
    assert [] + [AsI16(3)] == [3];
  }

  lemma BothEvents(horizon: int)
    ensures var h1 := ApplyEvent(TEST_DOMAIN, Fresh(horizon), LAST_EVENT);
      ApplyEvent(TEST_DOMAIN, h1, EARLY_EVENT).events == [Entry(Key(5, 5), EARLY_EVENT), Entry(Key(20, 20), LAST_EVENT)]
      && !Has(h1.events, Key(5, 5)) && From(h1.events, Key(5, 5)) != []
      && ApplyEvent(TEST_DOMAIN, h1, EARLY_EVENT).id == 1
  {
    hide Rank, Cut, Has, Below, From, After, UpTo, Sorted, CheckpointsAfter;
    OneEvent(horizon, EMPTY_SNAPSHOT, LAST_EVENT);
    SmallMap(Entry(Key(20, 20), LAST_EVENT), Key(5, 5));
  }

  /**
   * Snapshots and late events do not commute. After an event at time 20, a snapshot with sum 100 at time
   * 10 and an event of value 3 at time 5: when the event comes last a query at time 15 answers 3, and
   * when the snapshot comes last it answers 100.
   */
  lemma LateEventUnseatsSnapshot(horizon: int)
    ensures var last, early, snapshot := EventOp(LAST_EVENT), EventOp(EARLY_EVENT), SnapshotOp(LATER_SNAPSHOT);
      && SnapshotAt(TEST_DOMAIN, RunHistory(TEST_DOMAIN, Fresh(horizon), [last, snapshot, early]), 15)
         == Found(TestSnapshot(1, 15, [3], 3))
      && SnapshotAt(TEST_DOMAIN, RunHistory(TEST_DOMAIN, Fresh(horizon), [last, early, snapshot]), 15)
         == Found(TestSnapshot(1, 15, [], 100))
  {
    hide SnapshotAt, ApplySnapshot, ApplyEvent, RunHistory, Has, From;
    var last: Op<TestSnapshot, TestEvent> := EventOp(LAST_EVENT);
    var early: Op<TestSnapshot, TestEvent> := EventOp(EARLY_EVENT);
    var snapshot: Op<TestSnapshot, TestEvent> := SnapshotOp(LATER_SNAPSHOT);
    var h := ApplyEvent(TEST_DOMAIN, Fresh(horizon), LAST_EVENT);
    RunThree(TEST_DOMAIN, Fresh(horizon), last, snapshot, early);
    RunThree(TEST_DOMAIN, Fresh(horizon), last, early, snapshot);
    OneEvent(horizon, EMPTY_SNAPSHOT, LAST_EVENT);
    BothEvents(horizon);
    LateEventUndoes(TEST_DOMAIN, h, LATER_SNAPSHOT, EARLY_EVENT);
    AnswersThree(horizon);
    AnswersHundred(horizon);
  }

  lemma AnswersThree(horizon: int)
    ensures var h := ApplyEvent(TEST_DOMAIN, ApplyEvent(TEST_DOMAIN, Fresh(horizon), LAST_EVENT), EARLY_EVENT);
      SnapshotAt(TEST_DOMAIN, h, 15) == Found(TestSnapshot(1, 15, [3], 3))
  {
    hide SnapshotAt, ApplyEvent, RunHistory, Rank, Cut, Has, Below, From, After, UpTo, Replay, Sorted, Lawful;
    var last: Op<TestSnapshot, TestEvent> := EventOp(LAST_EVENT);
    var early: Op<TestSnapshot, TestEvent> := EventOp(EARLY_EVENT);
    RunTwo(TEST_DOMAIN, Fresh(horizon), last, early);
    BothEvents(horizon);
    TestDomainLawful();
    EventRunQuery(TEST_DOMAIN, EMPTY_SNAPSHOT, 0, horizon, CHECKPOINT_INTERVAL, [last, early], 15);
    CutBetween(Entry(Key(5, 5), EARLY_EVENT), Entry(Key(20, 20), LAST_EVENT), Key(15, 1));
    ReplaySingle(EMPTY_SNAPSHOT, Entry(Key(5, 5), EARLY_EVENT));
    assert [] + [AsI16(3)] == [3];
  }

  lemma AnswersHundred(horizon: int)
    ensures var h := ApplyEvent(TEST_DOMAIN, ApplyEvent(TEST_DOMAIN, Fresh(horizon), LAST_EVENT), EARLY_EVENT);
      SnapshotAt(TEST_DOMAIN, ApplySnapshot(TEST_DOMAIN, h, LATER_SNAPSHOT), 15) == Found(TestSnapshot(1, 15, [], 100))
  {
    hide SnapshotAt, ApplySnapshot, ApplyEvent, Rank, Cut, Has, Below, From, After, UpTo, Replay, Sorted, Lawful;
    var h := ApplyEvent(TEST_DOMAIN, ApplyEvent(TEST_DOMAIN, Fresh(horizon), LAST_EVENT), EARLY_EVENT);
    BothEvents(horizon);
    TestDomainLawful();
    CutBetween(h.events[0], h.events[1], Key(10, 1));
    SmallMap(h.events[1], Key(15, 1));
    AnswersSnapshot(h, LATER_SNAPSHOT, 15);
  }

  /** With no event between the snapshot and the query bound, the answer is the snapshot. */
  lemma AnswersSnapshot(h: History<TestSnapshot, TestEvent>, s: TestSnapshot, time: int)
    requires WellFormed(h) && s.id == h.id && s.time < time
    requires var later, bound := After(h.events, Excluded(Key(s.time, h.id))), Key(time, h.id);
      !Has(later, bound) && Below(later, bound) == []
    ensures SnapshotAt(TEST_DOMAIN, ApplySnapshot(TEST_DOMAIN, h, s), time) == Found(s.(time := time))
  {
    hide SnapshotAt, ApplySnapshot, Rank, Cut, Has, Below, From, After, UpTo, Sorted, Lawful;
    TestDomainLawful();
    OverrideAnswers(TEST_DOMAIN, h, s, [], time);
    RunSnoc(TEST_DOMAIN, ApplySnapshot(TEST_DOMAIN, h, s), [], SnapshotOp(s));
    SnapshotKeepsEvents(TEST_DOMAIN, h, s);
  }

  const LATE_SNAPSHOT: TestSnapshot := TestSnapshot(1, 50, [], 100)
  const OLD_EVENT: TestEvent := Positive(1, 10, 10, 3)

  /**
   * The message that opens a history decides. A snapshot with sum 100 at time 50 and an event of value 3
   * at time 10: when the snapshot opens the history it becomes an undated base and a query at time 60
   * answers 103; when the event comes first, the snapshot overrides it and the query answers 100.
   */
  lemma OpeningDecides(horizon: int)
    ensures var event, snapshot := EventIn(1, OLD_EVENT, FromEvent(OLD_EVENT)), SnapshotIn(LATE_SNAPSHOT);
      var d := TEST_DOMAIN;
      && OutcomeOf(d, Handle(d, horizon, Handle(d, horizon, map[], snapshot), event), SnapshotAtIn(1, 60))
         == Queried(TestSnapshot(1, 60, [3], 103))
      && OutcomeOf(d, Handle(d, horizon, Handle(d, horizon, map[], event), snapshot), SnapshotAtIn(1, 60))
         == Queried(TestSnapshot(1, 60, [], 100))
  {
    hide SnapshotAt, ApplySnapshot, ApplyEvent, New;
    SnapshotOpens(horizon);
    EventOpens(horizon);
  }

  lemma SnapshotOpens(horizon: int)
    ensures SnapshotAt(TEST_DOMAIN, ApplyEvent(TEST_DOMAIN, Open(TEST_DOMAIN, horizon, LATE_SNAPSHOT), OLD_EVENT), 60)
         == Found(TestSnapshot(1, 60, [3], 103))
  {
    hide SnapshotAt, ApplyEvent, RunHistory, Rank, Cut, Has, Below, From, After, UpTo, Insert, Replay, Sorted, Lawful;
    var op: Op<TestSnapshot, TestEvent> := EventOp(OLD_EVENT);
    TestDomainLawful();
    EventRunQuery(TEST_DOMAIN, LATE_SNAPSHOT, 0, horizon, CHECKPOINT_INTERVAL, [op], 60);
    RunTwo(TEST_DOMAIN, Open(TEST_DOMAIN, horizon, LATE_SNAPSHOT), op, op);
    OneEvent(horizon, LATE_SNAPSHOT, OLD_EVENT);
    SmallMap(Entry(Key(10, 10), OLD_EVENT), Key(60, 1));
    ReplaySingle(LATE_SNAPSHOT.(time := 0), Entry(Key(10, 10), OLD_EVENT));
    assert [] + [AsI16(3)] == [3];
  }

  lemma EventOpens(horizon: int)
    ensures var h := ApplyEvent(TEST_DOMAIN, Open(TEST_DOMAIN, horizon, FromEvent(OLD_EVENT)), OLD_EVENT);
      SnapshotAt(TEST_DOMAIN, ApplySnapshot(TEST_DOMAIN, h, LATE_SNAPSHOT), 60) == Found(TestSnapshot(1, 60, [], 100))
  {
    hide SnapshotAt, ApplySnapshot, ApplyEvent, Rank, Cut, Has, Below, From, After, UpTo, Sorted;
    OneEvent(horizon, FromEvent(OLD_EVENT), OLD_EVENT);
    SmallMap(Entry(Key(10, 10), OLD_EVENT), Key(50, 1));
    SmallMap(Entry(Key(10, 10), OLD_EVENT), Key(60, 1));
    var h := Open<TestSnapshot, TestEvent>(TEST_DOMAIN, horizon, FromEvent(OLD_EVENT));
    AnswersSnapshot(ApplyEvent(TEST_DOMAIN, h, OLD_EVENT), LATE_SNAPSHOT, 60);
  }

  /**
   * An advance forgets what no checkpoint holds: after an event of value 3 at time 5 and an advance whose
   * drop time is 7, a query at time 8 answers 0. Before the advance it answers 3.
   */
  lemma PruningForgets(horizon: int)
    ensures var h := RunHistory(TEST_DOMAIN, Fresh(horizon), [EventOp(EARLY_EVENT)]);
      && SnapshotAt(TEST_DOMAIN, h, 8) == Found(TestSnapshot(1, 8, [3], 3))
      && SnapshotAt(TEST_DOMAIN, Advance(h, horizon + 7), 8) == Found(TestSnapshot(1, 8, [], 0))
  {
    hide ApplyEvent, RunHistory, Rank, Cut, Has, From, Below, After, UpTo, Sorted, Replay;
    var y, h := Entry(Key(5, 5), EARLY_EVENT), ApplyEvent(TEST_DOMAIN, Fresh(horizon), EARLY_EVENT);
    RunTwo(TEST_DOMAIN, Fresh(horizon), EventOp(EARLY_EVENT), EventOp(EARLY_EVENT));
    OneEvent(horizon, EMPTY_SNAPSHOT, EARLY_EVENT);
    SmallMap(y, Key(7, 0));
    SmallMap(y, Key(8, 1));
    SmallMap(Entry(Key(10, 1), LATER_SNAPSHOT), Key(7, 0));
    SmallMap(Entry(Key(10, 1), LATER_SNAPSHOT), Key(8, 1));
    AfterAll<TestEvent>([]);
    ReplaySingle(EMPTY_SNAPSHOT, y);
    ReplayNone(TEST_DOMAIN, EMPTY_SNAPSHOT);
    assert [] + [AsI16(3)] == [3];
  }

  const OLD_SNAPSHOT: TestSnapshot := TestSnapshot(1, 5, [], 50)

  /** No event comes between a snapshot and a query of a history without events. */
  lemma NothingBetween(h: History<TestSnapshot, TestEvent>, key: Key, bound: Key)
    requires WellFormed(h) && h.events == []
    ensures var later := After(h.events, Excluded(key)); !Has(later, bound) && Below(later, bound) == []
  {
  }

  /**
   * Snapshots do not commute with each other: of two, dated 5 with sum 50 and 10 with sum 100, a query at
   * time 12 answers the older one when it is sent last, and the newer one when that is.
   */
  lemma LastSnapshotWins(horizon: int)
    ensures var d, newer, older := TEST_DOMAIN, SnapshotOp(LATER_SNAPSHOT), SnapshotOp(OLD_SNAPSHOT);
      && SnapshotAt(d, RunHistory(d, Fresh(horizon), [newer, older]), 12) == Found(TestSnapshot(1, 12, [], 50))
      && SnapshotAt(d, RunHistory(d, Fresh(horizon), [older, newer]), 12) == Found(TestSnapshot(1, 12, [], 100))
  {
    hide SnapshotAt, ApplySnapshot, RunHistory, Has, Below, After;
    var newer: Op<TestSnapshot, TestEvent> := SnapshotOp(LATER_SNAPSHOT);
    var older: Op<TestSnapshot, TestEvent> := SnapshotOp(OLD_SNAPSHOT);
    var h := Fresh(horizon);
    RunTwo(TEST_DOMAIN, h, newer, older);
    RunTwo(TEST_DOMAIN, h, older, newer);
    OlderSnapshotErases(TEST_DOMAIN, h, LATER_SNAPSHOT, OLD_SNAPSHOT);
    NothingBetween(h, Key(5, 1), Key(12, 1));
    AnswersSnapshot(h, OLD_SNAPSHOT, 12);
    var h' := ApplySnapshot(TEST_DOMAIN, h, OLD_SNAPSHOT);
    InstalledParts(TEST_DOMAIN, h, OLD_SNAPSHOT);
    NothingBetween(h', Key(10, 1), Key(12, 1));
    AnswersSnapshot(h', LATER_SNAPSHOT, 12);
  }

  /**
   * A snapshot dated after every event announces a span that ends before it starts: from 10 to 5. The
   * answer it changes, at time 12, is outside.
   */
  lemma SpanReversed(horizon: int)
    ensures var h := RunHistory(TEST_DOMAIN, Fresh(horizon), [EventOp(EARLY_EVENT)]);
      && SnapshotNotice(TEST_DOMAIN, h, LATER_SNAPSHOT) == [Reconciliation(1, 10, 5)]
      && SnapshotAt(TEST_DOMAIN, h, 12) == Found(TestSnapshot(1, 12, [3], 3))
      && SnapshotAt(TEST_DOMAIN, ApplySnapshot(TEST_DOMAIN, h, LATER_SNAPSHOT), 12)
         == Found(TestSnapshot(1, 12, [], 100))
  {
    hide ApplyEvent, ApplySnapshot, SnapshotAt, RunHistory, Rank, Cut, Has, From, Below, After, UpTo, Sorted, Replay;
    hide Lawful;
    var y, early := Entry(Key(5, 5), EARLY_EVENT), EventOp(EARLY_EVENT);
    RunTwo(TEST_DOMAIN, Fresh(horizon), early, early);
    OneEvent(horizon, EMPTY_SNAPSHOT, EARLY_EVENT);
    TestDomainLawful();
    EventRunQuery(TEST_DOMAIN, EMPTY_SNAPSHOT, 0, horizon, CHECKPOINT_INTERVAL, [early], 12);
    SmallMap(y, Key(12, 1));
    SmallMap(y, Key(10, 1));
    ReplaySingle(EMPTY_SNAPSHOT, y);
    assert [] + [AsI16(3)] == [3];
    AnswersSnapshot(RunHistory(TEST_DOMAIN, Fresh(horizon), [early]), LATER_SNAPSHOT, 12);
  }
}
