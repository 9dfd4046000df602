/** Runs from the crate's own tests, with the values those tests expect. */
module Scenarios {
  import opened Keys
  import opened OrderedMaps
  import opened MapFacts
  import opened Domains
  import opened Checkpoints
  import opened Histories
  import opened Timelines
  import opened Refinement
  import opened EventRuns
  import opened LocalSnapshotHistories
  import opened Overrides
  import opened Commutation
  import opened Workers
  import opened Ledger
  import opened Charges
  import opened Stamps
  import opened Reconciliations
  import opened Fixture
  import opened Witnesses

  type TestOp = Op<TestSnapshot, TestEvent>

  function FreshEvery(k: nat): (h: History<TestSnapshot, TestEvent>)
    requires k > 0
    ensures WellFormed(h)
  {
    New(TEST_DOMAIN, EMPTY_SNAPSHOT, 0, 1000, k)
  }

  /** `m` lists the events of `ops` in key order. */
  ghost predicate Lists(m: seq<Entry<TestEvent>>, ops: seq<TestOp>) {
    && Sorted(m) && OnlyEvents(ops) && KeysDetermine(TEST_DOMAIN, ops)
    && (forall x | x in m :: x.key == Key(x.value.time, x.value.eventId) && TestOp.EventOp(x.value) in ops)
    && (forall op | op in ops :: Entry(Key(op.event.time, op.event.eventId), op.event) in m)
  }

  /** What a run of events stores. */
  lemma Stores(k: nat, ops: seq<TestOp>, m: seq<Entry<TestEvent>>)
    requires k > 0 && Lists(m, ops)
    ensures RunHistory(TEST_DOMAIN, FreshEvery(k), ops).events == m
    ensures var h := RunHistory(TEST_DOMAIN, FreshEvery(k), ops);
      h.id == 1 && h.base == EMPTY_SNAPSHOT && h.checkpoints == Rebuild(TEST_DOMAIN, EMPTY_SNAPSHOT, m, k)
  {
    hide RunHistory, Run, New, Sorted, KeysDetermine, OnlyEvents, Represents, SafeRun, Start, Rebuild;
    var h, t := FreshEvery(k), Start<TestSnapshot, TestEvent>(TEST_DOMAIN, EMPTY_SNAPSHOT, 0, 1000);
    NewRepresents<TestSnapshot, TestEvent>(TEST_DOMAIN, EMPTY_SNAPSHOT, 0, 1000, k);
    NewFields<TestSnapshot, TestEvent>(TEST_DOMAIN, EMPTY_SNAPSHOT, 0, 1000, k);
    EventRun(TEST_DOMAIN, h, t, ops);
    RepresentsEvents(RunHistory(TEST_DOMAIN, h, ops), Run(TEST_DOMAIN, t, ops));
    RecordedEvents(TEST_DOMAIN, t, ops);
    ListsExactly(m, ops);
    SameEntries(Run(TEST_DOMAIN, t, ops).events, m);
    Canonical(TEST_DOMAIN, EMPTY_SNAPSHOT, 0, 1000, k, ops);
    RunKeepsInterval(TEST_DOMAIN, h, ops);
  }

  lemma RepresentsEvents(h: History<TestSnapshot, TestEvent>, t: Timeline<TestSnapshot, TestEvent>)
    requires Represents(TEST_DOMAIN, h, t)
    ensures WellFormed(h) && Sorted(t.events) && h.events == t.events
  {
  }

  lemma ListsExactly(m: seq<Entry<TestEvent>>, ops: seq<TestOp>)
    requires Lists(m, ops)
    ensures forall x :: x in m <==> x.key == KeyOf(TEST_DOMAIN, x.value) && TestOp.EventOp(x.value) in ops
  {
    hide Sorted, KeysDetermine;
  }

  /** What a query answers: the fold of the events before its bound. */
  lemma Answers(k: nat, ops: seq<TestOp>, m: seq<Entry<TestEvent>>, n: nat, time: int)
    requires k > 0 && Lists(m, ops) && n <= |m|
    requires forall i | 0 <= i < |m| :: if i < n then Less(m[i].key, Key(time, 1)) else Less(Key(time, 1), m[i].key)
    ensures SnapshotAt(TEST_DOMAIN, RunHistory(TEST_DOMAIN, FreshEvery(k), ops), time)
         == Found(Replay(TEST_DOMAIN, EMPTY_SNAPSHOT, m[..n]).(time := time))
  {
    hide RunHistory, New, SnapshotAt, Replay, Rank, Lawful;
    TestDomainLawful();
    Stores(k, ops, m);
    EventRunQuery(TEST_DOMAIN, EMPTY_SNAPSHOT, 0, 1000, k, ops, time);
    RankIs(m, Key(time, 1), n);
  }

  lemma ReplayStep(s: TestSnapshot, es: seq<Entry<TestEvent>>, n: nat)
    requires n < |es|
    ensures Replay(TEST_DOMAIN, s, es[..n + 1]) == ApplyTo(es[n].value, Replay(TEST_DOMAIN, s, es[..n]))
    ensures Replay(TEST_DOMAIN, s, es[..0]) == s
  {
    assert es[..n + 1][..n] == es[..n];
  }

  const OUT_OF_ORDER: seq<TestOp> := [
    EventOp(Positive(1, 10, 10, 10)), EventOp(Positive(1, 5, 5, 20)),
    EventOp(Positive(1, 1, 1, 5)), EventOp(Negative(1, 7, 7, 3))]

  const IN_ORDER: seq<Entry<TestEvent>> := [
    Entry(Key(1, 1), Positive(1, 1, 1, 5)), Entry(Key(5, 5), Positive(1, 5, 5, 20)),
    Entry(Key(7, 7), Negative(1, 7, 7, 3)), Entry(Key(10, 10), Positive(1, 10, 10, 10))]

  lemma ListsInOrder()
    ensures Lists(IN_ORDER, OUT_OF_ORDER)
  {
    hide KeysDetermine;
    var m, ops := IN_ORDER, OUT_OF_ORDER;
    assert ops[0] in ops && ops[1] in ops && ops[2] in ops && ops[3] in ops;
    assert m[0] in m && m[1] in m && m[2] in m && m[3] in m;
    DifferentTimes(ops);
  }

  /** Events at different times have different keys. */
  lemma DifferentTimes(ops: seq<TestOp>)
    requires OnlyEvents(ops)
    requires forall i, j | 0 <= i < j < |ops| :: ops[i].event.time != ops[j].event.time
    ensures KeysDetermine(TEST_DOMAIN, ops)
  {
  }

  lemma ReplaysInOrder()
    ensures Replay(TEST_DOMAIN, EMPTY_SNAPSHOT, IN_ORDER[..0]) == TestSnapshot(1, 0, [], 0)
    ensures Replay(TEST_DOMAIN, EMPTY_SNAPSHOT, IN_ORDER[..1]) == TestSnapshot(1, 0, [5], 5)
    ensures Replay(TEST_DOMAIN, EMPTY_SNAPSHOT, IN_ORDER[..2]) == TestSnapshot(1, 0, [5, 20], 25)
    ensures Replay(TEST_DOMAIN, EMPTY_SNAPSHOT, IN_ORDER[..3]) == TestSnapshot(1, 0, [5, 20, -3], 22)
    ensures Replay(TEST_DOMAIN, EMPTY_SNAPSHOT, IN_ORDER[..4]) == TestSnapshot(1, 0, [5, 20, -3, 10], 32)
  {
    hide Replay;
    ReplayStep(EMPTY_SNAPSHOT, IN_ORDER, 0);
    ReplayStep(EMPTY_SNAPSHOT, IN_ORDER, 1);
    ReplayStep(EMPTY_SNAPSHOT, IN_ORDER, 2);
    ReplayStep(EMPTY_SNAPSHOT, IN_ORDER, 3);
  }

  /** Four events out of order, one of them negative, asked for at five times. */
  lemma OutOfOrderDeterministic()
    ensures var h := RunHistory(TEST_DOMAIN, FreshEvery(100), OUT_OF_ORDER);
      && SnapshotAt(TEST_DOMAIN, h, 0) == Found(TestSnapshot(1, 0, [], 0))
      && SnapshotAt(TEST_DOMAIN, h, 2) == Found(TestSnapshot(1, 2, [5], 5))
      && SnapshotAt(TEST_DOMAIN, h, 6) == Found(TestSnapshot(1, 6, [5, 20], 25))
      && SnapshotAt(TEST_DOMAIN, h, 8) == Found(TestSnapshot(1, 8, [5, 20, -3], 22))
      && SnapshotAt(TEST_DOMAIN, h, 11) == Found(TestSnapshot(1, 11, [5, 20, -3, 10], 32))
  {
    hide RunHistory, SnapshotAt, Replay, New;
    ReplaysInOrder();
    InOrderAnswers(0, 0);
    InOrderAnswers(1, 2);
    InOrderAnswers(2, 6);
    InOrderAnswers(3, 8);
    InOrderAnswers(4, 11);
  }

  lemma InOrderAnswers(n: nat, time: int)
    requires n <= 4 && (n > 0 ==> IN_ORDER[n - 1].key.time < time) && (n < 4 ==> time < IN_ORDER[n].key.time)
    ensures SnapshotAt(TEST_DOMAIN, RunHistory(TEST_DOMAIN, FreshEvery(100), OUT_OF_ORDER), time)
         == Found(Replay(TEST_DOMAIN, EMPTY_SNAPSHOT, IN_ORDER[..n]).(time := time))
  {
    hide RunHistory, SnapshotAt, Replay, Lists, New;
    ListsInOrder();
    Answers(100, OUT_OF_ORDER, IN_ORDER, n, time);
  }

  /** Two events, listed; their order of arrival does not matter. */
  lemma ListsTwo(x: TestEvent, y: TestEvent)
    requires Less(Key(x.time, x.eventId), Key(y.time, y.eventId))
    ensures var m := [Entry(Key(x.time, x.eventId), x), Entry(Key(y.time, y.eventId), y)];
      Lists(m, [EventOp(x), EventOp(y)]) && Lists(m, [EventOp(y), EventOp(x)])
  {
    var m := [Entry(Key(x.time, x.eventId), x), Entry(Key(y.time, y.eventId), y)];
    var xy: seq<TestOp>, yx: seq<TestOp> := [EventOp(x), EventOp(y)], [EventOp(y), EventOp(x)];
    assert m[0] in m && m[1] in m && xy[0] in xy && xy[1] in xy && yx[0] in yx && yx[1] in yx;
  }

  lemma ReplayTwo(s: TestSnapshot, x: Entry<TestEvent>, y: Entry<TestEvent>)
    ensures Replay(TEST_DOMAIN, s, [x]) == ApplyTo(x.value, s)
    ensures Replay(TEST_DOMAIN, s, [x, y]) == ApplyTo(y.value, ApplyTo(x.value, s))
  {
    hide Replay;
    var m := [x, y];
    ReplayStep(s, m, 0);
    ReplayStep(s, m, 1);
    assert m[..1] == [x] && m[..2] == m;
  }

  /** Two events of the same id at different times, or of different ids at the same time, both count. */
  lemma TimeAndIdIdentify()
    ensures var ops := [EventOp(Positive(1, 1, 0, 10)), EventOp(Positive(1, 5, 0, 20))];
      SnapshotAt(TEST_DOMAIN, RunHistory(TEST_DOMAIN, FreshEvery(100), ops), 6)
      == Found(TestSnapshot(1, 6, [10, 20], 30))
    ensures var ops := [EventOp(Positive(1, 5, 1, 3)), EventOp(Positive(1, 5, 101, 4))];
      SnapshotAt(TEST_DOMAIN, RunHistory(TEST_DOMAIN, FreshEvery(100), ops), 10)
      == Found(TestSnapshot(1, 10, [3, 4], 7))
  {
    hide RunHistory, SnapshotAt, Replay, Lists, New;
    TwoAnswer(Positive(1, 1, 0, 10), Positive(1, 5, 0, 20), 6);
    TwoAnswer(Positive(1, 5, 1, 3), Positive(1, 5, 101, 4), 10);
    assert [] + [10] + [20] == [10, 20] && [] + [3] + [4] == [3, 4];
  }

  lemma TwoAnswer(x: TestEvent, y: TestEvent, time: int)
    requires Less(Key(x.time, x.eventId), Key(y.time, y.eventId)) && y.time < time
    ensures SnapshotAt(TEST_DOMAIN, RunHistory(TEST_DOMAIN, FreshEvery(100), [EventOp(x), EventOp(y)]), time)
         == Found(ApplyTo(y, ApplyTo(x, EMPTY_SNAPSHOT)).(time := time))
  {
    hide RunHistory, SnapshotAt, Replay, Lists, New;
    var m := [Entry(Key(x.time, x.eventId), x), Entry(Key(y.time, y.eventId), y)];
    ListsTwo(x, y);
    Answers(100, [EventOp(x), EventOp(y)], m, 2, time);
    ReplayTwo(EMPTY_SNAPSHOT, m[0], m[1]);
    assert m[..2] == m;
  }

  /** An event at the query time with a larger id is left out, and counts one tick later. */
  lemma ExactEventTime()
    ensures var h := RunHistory(TEST_DOMAIN, FreshEvery(100), [EventOp(Positive(1, 5, 5, 42))]);
      && SnapshotAt(TEST_DOMAIN, h, 5) == Found(TestSnapshot(1, 5, [], 0))
      && SnapshotAt(TEST_DOMAIN, h, 6) == Found(TestSnapshot(1, 6, [42], 42))
  {
    hide RunHistory, SnapshotAt, Replay, New;
    var x, ops := Entry(Key(5, 5), Positive(1, 5, 5, 42)), [EventOp(Positive(1, 5, 5, 42))];
    assert ops[0] in ops && [x][0] in [x];
    Answers(100, ops, [x], 0, 5);
    Answers(100, ops, [x], 1, 6);
    ReplayStep(EMPTY_SNAPSHOT, [x], 0);
    assert [] + [42] == [42];
  }

  // ---- checkpoints ----

  lemma FoldTwo(s: TestSnapshot, x: Entry<TestEvent>, y: Entry<TestEvent>)
    ensures Fold(TEST_DOMAIN, s, [x, y])
         == ApplyTo(y.value, ApplyTo(x.value, s).(time := x.value.time)).(time := y.value.time)
  {
    hide Fold;
    var m := [x, y];
    FoldNothing(TEST_DOMAIN, s, m);
    FoldOneMore(TEST_DOMAIN, s, m, 0);
    FoldOneMore(TEST_DOMAIN, s, m, 1);
    assert m[..2] == m;
  }

  /** At interval 2 two events leave one checkpoint, at and dated by the later one, in either order. */
  lemma SecondEventIsCheckpointed()
    ensures var x, y := EventOp(Positive(1, 1, 1, 1)), EventOp(Positive(1, 2, 2, 2));
      var expected := [Entry(Key(2, 2), TestSnapshot(1, 2, [1, 2], 3))];
      && RunHistory(TEST_DOMAIN, FreshEvery(2), [x, y]).checkpoints == expected
      && RunHistory(TEST_DOMAIN, FreshEvery(2), [y, x]).checkpoints == expected
  {
    hide RunHistory, New, Rebuild, Fold, Lists;
    var x, y := Positive(1, 1, 1, 1), Positive(1, 2, 2, 2);
    var m := [Entry(Key(1, 1), x), Entry(Key(2, 2), y)];
    ListsTwo(x, y);
    Stores(2, [EventOp(x), EventOp(y)], m);
    Stores(2, [EventOp(y), EventOp(x)], m);
    RebuildShort(TEST_DOMAIN, EMPTY_SNAPSHOT, m, 2);
    FoldTwo(EMPTY_SNAPSHOT, m[0], m[1]);
    assert [] + [1] + [2] == [1, 2];
  }

  /** A duplicate leaves one event and no checkpoint. */
  lemma DuplicateIsIgnored()
    ensures var x := EventOp(Positive(1, 1, 1, 1));
      var h := RunHistory(TEST_DOMAIN, FreshEvery(2), [x, x]);
      h.events == [Entry(Key(1, 1), x.event)] && h.checkpoints == []
  {
    hide RunHistory, New, Rebuild;
    var x: TestOp := EventOp(Positive(1, 1, 1, 1));
    var m, ops := [Entry(Key(1, 1), x.event)], [x, x];
    assert m[0] in m && ops[0] in ops;
    Stores(2, ops, m);
    RebuildShort(TEST_DOMAIN, EMPTY_SNAPSHOT, m, 2);
  }

  // ---- authoritative snapshots and advances ----

  /** Three events, listed. */
  lemma ListsThree(x: TestEvent, y: TestEvent, z: TestEvent)
    requires x.time < y.time < z.time
    ensures var m :=
        [Entry(Key(x.time, x.eventId), x), Entry(Key(y.time, y.eventId), y), Entry(Key(z.time, z.eventId), z)];
      Lists(m, [EventOp(x), EventOp(y), EventOp(z)])
  {
    hide KeysDetermine;
    var m := [Entry(Key(x.time, x.eventId), x), Entry(Key(y.time, y.eventId), y), Entry(Key(z.time, z.eventId), z)];
    var ops: seq<TestOp> := [EventOp(x), EventOp(y), EventOp(z)];
    assert m[0] in m && m[1] in m && m[2] in m && ops[0] in ops && ops[1] in ops && ops[2] in ops;
    DifferentTimes(ops);
  }

  const AUTHORITATIVE: TestSnapshot := TestSnapshot(1, 2, [99], 100)

  /** A snapshot between events: it is kept as it is, and the later events are folded on top of it. */
  lemma SnapshotBetweenEvents()
    ensures var ops := [EventOp(Positive(1, 1, 1, 10)), EventOp(Positive(1, 3, 3, 20)), EventOp(Positive(1, 5, 5, 30))];
      var h := ApplySnapshot(TEST_DOMAIN, RunHistory(TEST_DOMAIN, FreshEvery(2), ops), AUTHORITATIVE);
      && Entry(Key(2, 1), AUTHORITATIVE) in h.checkpoints
      && SnapshotAt(TEST_DOMAIN, h, 6) == Found(TestSnapshot(1, 6, [99, 20, 30], 150))
  {
    hide RunHistory, ApplySnapshot, SnapshotAt, Replay, New, Lists, Rank, Cut, Has, Below, After, Lawful, Rebuild;
    var x, y, z := Positive(1, 1, 1, 10), Positive(1, 3, 3, 20), Positive(1, 5, 5, 30);
    var m := [Entry(Key(1, 1), x), Entry(Key(3, 3), y), Entry(Key(5, 5), z)];
    var ops: seq<TestOp> := [EventOp(x), EventOp(y), EventOp(z)];
    var h := RunHistory(TEST_DOMAIN, FreshEvery(2), ops);
    ListsThree(x, y, z);
    Stores(2, ops, m);
    SnapshotPresent(TEST_DOMAIN, h, AUTHORITATIVE);
    TestDomainLawful();
    OverrideAnswers(TEST_DOMAIN, h, AUTHORITATIVE, [], 6);
    RunSnoc(TEST_DOMAIN, ApplySnapshot(TEST_DOMAIN, h, AUTHORITATIVE), [], SnapshotOp(AUTHORITATIVE));
    SnapshotKeepsEvents(TEST_DOMAIN, h, AUTHORITATIVE);
    CutsThree(m);
    ReplayTwo(AUTHORITATIVE, m[1], m[2]);
    assert [99] + [20] + [30] == [99, 20, 30];
  }

  lemma CutsThree(m: seq<Entry<TestEvent>>)
    requires Sorted(m) && |m| == 3 && m[0].key == Key(1, 1) && m[1].key == Key(3, 3) && m[2].key == Key(5, 5)
    ensures var later := After(m, Excluded(Key(2, 1)));
      later == m[1..] == [m[1], m[2]] && !Has(later, Key(6, 1)) && Below(later, Key(6, 1)) == later
  {
    CutIs(m, Excluded(Key(2, 1)), 1);
    RankIs(m[1..], Key(6, 1), 2);
  }

  /** In a history that never held an event, a query at exactly the snapshot's time answers the snapshot. */
  lemma SnapshotThenQuery()
    ensures var s := TestSnapshot(1, 5, [1], 42);
      SnapshotAt(TEST_DOMAIN, ApplySnapshot(TEST_DOMAIN, FreshEvery(100), s), 5) == Found(s)
  {
    hide SnapshotAt, ApplySnapshot;
    QueryAtSnapshotTime(TEST_DOMAIN, FreshEvery(100), TestSnapshot(1, 5, [1], 42));
  }

  /** A foreign snapshot changes nothing, sends nothing and is charged nothing. */
  lemma ForeignSnapshot<S, E>(d: Domain<S, E>, h: History<S, E>, s: S)
    requires WellFormed(h) && d.snapshotId(s) != h.id
    ensures ApplySnapshot(d, h, s) == h && SnapshotNotice(d, h, s) == []
  {
  }

  lemma RebuildEach(x: Entry<TestEvent>, y: Entry<TestEvent>, z: Entry<TestEvent>)
    ensures Rebuild(TEST_DOMAIN, EMPTY_SNAPSHOT, [x, y, z], 1)
         == [Entry(x.key, Fold(TEST_DOMAIN, EMPTY_SNAPSHOT, [x])),
             Entry(y.key, Fold(TEST_DOMAIN, EMPTY_SNAPSHOT, [x, y])),
             Entry(z.key, Fold(TEST_DOMAIN, EMPTY_SNAPSHOT, [x, y, z]))]
  {
    hide Fold;
    var m := [x, y, z];
    assert m[..2] == [x, y] && [x, y][..1] == [x] && [x][..0] == [];
    RebuildShort(TEST_DOMAIN, EMPTY_SNAPSHOT, [x], 1);
    assert Rebuild(TEST_DOMAIN, EMPTY_SNAPSHOT, [x, y], 1)
        == Rebuild(TEST_DOMAIN, EMPTY_SNAPSHOT, [x], 1) + [Entry(y.key, Fold(TEST_DOMAIN, EMPTY_SNAPSHOT, [x, y]))];
  }

  /** At interval 1 an advance makes the last dropped checkpoint the base, with its own time. */
  lemma AdvancePromotes()
    ensures var ops :=
        [EventOp(Positive(1, 10, 10, 5)), EventOp(Positive(1, 20, 20, 10)), EventOp(Positive(1, 30, 30, 15))];
      var h := Advance(RunHistory(TEST_DOMAIN, FreshEvery(1), ops), 1030);
      && h.base == TestSnapshot(1, 20, [5, 10], 15)
      && h.events == [Entry(Key(30, 30), Positive(1, 30, 30, 15))] && |h.checkpoints| == 1
  {
    hide RunHistory, New, Lists, Rank, Has, Rebuild, Fold, Below, From;
    var x, y, z := Positive(1, 10, 10, 5), Positive(1, 20, 20, 10), Positive(1, 30, 30, 15);
    var m := [Entry(Key(10, 10), x), Entry(Key(20, 20), y), Entry(Key(30, 30), z)];
    var ops: seq<TestOp> := [EventOp(x), EventOp(y), EventOp(z)];
    ListsThree(x, y, z);
    Stores(1, ops, m);
    RunClock(1, ops);
    RebuildEach(m[0], m[1], m[2]);
    FoldTwo(EMPTY_SNAPSHOT, m[0], m[1]);
    assert [] + [5] + [10] == [5, 10];
    CutAtThird(m, Key(30, 0));
    CutAtThird(RunHistory(TEST_DOMAIN, FreshEvery(1), ops).checkpoints, Key(30, 0));
  }

  lemma RunClock(k: nat, ops: seq<TestOp>)
    requires k > 0 && OnlyEvents(ops)
    ensures var h := RunHistory(TEST_DOMAIN, FreshEvery(k), ops); h.now == 0 && h.horizon == 1000
  {
    RunFrame(TEST_DOMAIN, FreshEvery(k), ops);
  }

  lemma CutAtThird<V>(m: seq<Entry<V>>, key: Key)
    requires Sorted(m) && |m| == 3 && Less(m[1].key, key) && !Less(m[2].key, key)
    ensures Below(m, key) == m[..2] && From(m, key) == [m[2]]
  {
    assert Less(m[0].key, m[1].key);
    RankIs(m, key, 2);
  }

  // ---- notifications ----

  /** The object's own queue after a late event, and after a snapshot dated before the latest event. */
  method LateArrivalsNotify() returns (queue: seq<Reconciliation>)
    ensures queue == [Reconciliation(1, 5, 10), Reconciliation(1, 3, 10)]
  {
    hide Histories.ApplyEvent, Histories.ApplySnapshot, ApplyCost, OverwrittenBytes, Footprint;
    hide EventNotice, SnapshotNotice, Insert, After;
    var history, _ := LocalSnapshotHistory<TestSnapshot, TestEvent>.Create(TEST_DOMAIN, EMPTY_SNAPSHOT, 0, 1000);
    var _ := history.ApplyEvent(Positive(1, 10, 10, 10));
    var _ := history.ApplyEvent(Positive(1, 5, 5, 20));
    var _ := history.ApplySnapshot(TestSnapshot(1, 3, [], 42));
    LateNotices(Histories.New(TEST_DOMAIN, EMPTY_SNAPSHOT, 0, 1000, Histories.CHECKPOINT_INTERVAL));
    queue := history.reconciliations;
  }

  lemma LateNotices(h: History<TestSnapshot, TestEvent>)
    requires h == New(TEST_DOMAIN, EMPTY_SNAPSHOT, 0, 1000, CHECKPOINT_INTERVAL)
    ensures var h1 := Histories.ApplyEvent(TEST_DOMAIN, h, Positive(1, 10, 10, 10));
      var h2 := Histories.ApplyEvent(TEST_DOMAIN, h1, Positive(1, 5, 5, 20));
      && EventNotice(TEST_DOMAIN, h, Positive(1, 10, 10, 10)) == []
      && EventNotice(TEST_DOMAIN, h1, Positive(1, 5, 5, 20)) == [Reconciliation(1, 5, 10)]
      && SnapshotNotice(TEST_DOMAIN, h2, TestSnapshot(1, 3, [], 42)) == [Reconciliation(1, 3, 10)]
  {
    hide CheckpointsAfter, Rank, Cut, Has, From, Below, After, UpTo, Sorted;
    OneEvent(1000, EMPTY_SNAPSHOT, Positive(1, 10, 10, 10));
    SmallMap(Entry(Key(10, 10), Positive(1, 10, 10, 10)), Key(5, 5));
  }

  // ---- the worker ----

  /** In a history the worker opens, exactly every hundredth event leaves a checkpoint. */
  lemma EveryHundredth<S, E>(d: Domain<S, E>, horizon: int, s: S, ops: seq<Op<S, E>>)
    requires OnlyEvents(ops)
    ensures var h := RunHistory(d, Open<S, E>(d, horizon, s), ops);
      && |h.checkpoints| == |h.events| / 100
      && (forall n | 0 < n <= |h.events| && n % 100 == 0 ::
            0 < n / 100 <= |h.checkpoints| && h.checkpoints[n / 100 - 1].key == h.events[n - 1].key)
  {
    hide RunHistory, New, Rebuild, Fold;
    var h := RunHistory(d, Open<S, E>(d, horizon, s), ops);
    Canonical(d, s, 0, horizon, 100, ops);
    CheckpointEveryKth(d, h.base, h.events, 100);
  }

  /** The first message of an entity publishes the empty base, 28 bytes, and then the event, 42 bytes. */
  lemma FirstMessagePublishes(horizon: int)
    ensures var e := Positive(1, 5, 5, 3);
      Deltas(TEST_DOMAIN, horizon, map[], EventIn(1, e, FromEvent(e)), []) == [28, 42]
  {
    hide ApplyEvent;
    var e := Positive(1, 5, 5, 3);
    OneEvent(horizon, FromEvent(e), e);
    OpDeltaOne(horizon, e);
  }

  lemma OpDeltaOne(horizon: int, e: TestEvent)
    requires e.snapshotId == 1
    ensures OpDelta(TEST_DOMAIN, Open(TEST_DOMAIN, horizon, FromEvent(e)), EventOp(e)) == 42
  {
    hide ApplyEvent, OverwrittenBytes;
    var h := Open<TestSnapshot, TestEvent>(TEST_DOMAIN, horizon, FromEvent(e));
    OneEvent(horizon, FromEvent(e), e);
    OnEventsOverwritesNothing(TEST_DOMAIN, h, e);
    BytesSnoc(TEST_DOMAIN.eventSize, [], Entry(KeyOf(TEST_DOMAIN, e), e));
    assert [] + [Entry(KeyOf(TEST_DOMAIN, e), e)] == [Entry(KeyOf(TEST_DOMAIN, e), e)];
  }

  /** Pruning starts at the clock minus the horizon, and the clock of a new history stands at 0. */
  lemma AdvanceDropsBehindHorizon(horizon: int)
    ensures var e := Positive(1, 5, 5, 3);
      var m := Handle(TEST_DOMAIN, horizon, map[], EventIn(1, e, FromEvent(e)));
      && OutcomeOf(TEST_DOMAIN, Handle(TEST_DOMAIN, horizon, m, AdvanceIn(horizon + 5)), SnapshotAtIn(1, 8))
         == Queried(TestSnapshot(1, 8, [3], 3))
      && OutcomeOf(TEST_DOMAIN, Handle(TEST_DOMAIN, horizon, m, AdvanceIn(horizon + 6)), SnapshotAtIn(1, 8))
         == Queried(TestSnapshot(1, 8, [], 0))
      && OutcomeOf(TEST_DOMAIN, m, SnapshotAtIn(2, 8)) == NotFound
  {
    hide ApplyEvent, Rank, Cut, Has, From, Below, After, UpTo, Sorted, Replay;
    var e := Positive(1, 5, 5, 3);
    OneEvent(horizon, FromEvent(e), e);
    DropOne(ApplyEvent(TEST_DOMAIN, Open(TEST_DOMAIN, horizon, FromEvent(e)), e), horizon, 5);
    DropOne(ApplyEvent(TEST_DOMAIN, Open(TEST_DOMAIN, horizon, FromEvent(e)), e), horizon, 6);
  }

  lemma DropOne(h: History<TestSnapshot, TestEvent>, horizon: int, drop: int)
    requires WellFormed(h) && h.id == 1 && h.base == EMPTY_SNAPSHOT && h.checkpoints == []
    requires h.now == 0 && h.horizon == horizon && h.events == [Entry(Key(5, 5), Positive(1, 5, 5, 3))]
    requires 5 <= drop <= 6
    ensures SnapshotAt(TEST_DOMAIN, Advance(h, horizon + drop), 8)
         == Found(if drop == 5 then TestSnapshot(1, 8, [3], 3) else TestSnapshot(1, 8, [], 0))
  {
    hide Rank, Cut, Has, From, Below, After, UpTo, Sorted, Replay;
    var y := h.events[0];
    SmallMap(y, Key(drop, 0));
    SmallMap(y, Key(8, 1));
    NoEntries<TestSnapshot>(Key(drop, 0), Key(8, 1));
    AfterAll<TestEvent>([]);
    ReplaySingle(EMPTY_SNAPSHOT, y);
    ReplayNone(TEST_DOMAIN, EMPTY_SNAPSHOT);
    assert [] + [AsI16(3)] == [3];
  }

  lemma NoEntries<V>(drop: Key, bound: Key)
    ensures Below<V>([], drop) == From<V>([], drop) == UpTo<V>([], bound) == [] && !Has<V>([], bound)
  {
  }

  /**
   * An advance does not charge the growth of the base: the snapshot's 32 bytes come off, the 4 by which the
   * new base is larger do not go on.
   */
  lemma PromotionIsFree(horizon: int)
    ensures var s := TestSnapshot(1, 10, [1, 2], 3);
      var h := ApplySnapshot(TEST_DOMAIN, Fresh(horizon), s);
      && OpDelta(TEST_DOMAIN, h, AdvanceOp(horizon + 11)) == -32
      && Owned(TEST_DOMAIN, Advance(h, horizon + 11)) == Owned(TEST_DOMAIN, h) - 28
  {
    hide ApplySnapshot, Rank, Cut, Has, From, Below, After, UpTo, Sorted, Rebuild, OpDelta, Owned, Advance;
    var s, h := TestSnapshot(1, 10, [1, 2], 3), Fresh(horizon);
    InstalledParts(TEST_DOMAIN, h, s);
    NoEntries<TestSnapshot>(Key(10, 1), Key(10, 1));
    AfterNone<TestEvent>(Excluded(Key(10, 1)));
    RebuildOfNothing(TEST_DOMAIN, s, 100);
    var x := Entry(Key(10, 1), s);
    assert [] + ([x] + []) == [x];
    PromotesLone(h.(checkpoints := [x]), horizon, x);
  }

  lemma AfterNone<V>(b: Bound)
    ensures After<V>([], b) == []
  {
  }

  lemma PromotesLone(h: History<TestSnapshot, TestEvent>, horizon: int, x: Entry<TestSnapshot>)
    requires WellFormed(h) && h.base == EMPTY_SNAPSHOT && h.events == [] && h.checkpoints == [x]
    requires x == Entry(Key(10, 1), TestSnapshot(1, 10, [1, 2], 3)) && h.now == 0 && h.horizon == horizon
    ensures OpDelta(TEST_DOMAIN, h, AdvanceOp(horizon + 11)) == -32
    ensures Owned(TEST_DOMAIN, Advance(h, horizon + 11)) == Owned(TEST_DOMAIN, h) - 28
  {
    hide Rank, Cut, Has, From, Below, After, UpTo, Sorted;
    SmallMap(x, Key(11, 0));
    NoEntries<TestEvent>(Key(11, 0), Key(11, 0));
    BytesSnoc(TEST_DOMAIN.snapshotSize, [], x);
    assert [] + [x] == [x];
  }

  /** A snapshot planted at an older event keeps its own, later time. */
  lemma PlantedIsMisdated(horizon: int)
    ensures var ops := [SnapshotOp(LATER_SNAPSHOT), EventOp(EARLY_EVENT)];
      var h := RunHistory(TEST_DOMAIN, Fresh(horizon), ops);
      Entry(Key(5, 5), LATER_SNAPSHOT) in h.checkpoints && LATER_SNAPSHOT.time == 10
      && !Stamped(TEST_DOMAIN, h.checkpoints)
  {
    hide ApplySnapshot, ApplyEvent, RunHistory, Rank, Cut, Has, Below, From, After, UpTo, Insert, Sorted;
    RunTwo(TEST_DOMAIN, Fresh(horizon), SnapshotOp(LATER_SNAPSHOT), EventOp(EARLY_EVENT));
    var x := Entry(Key(10, 1), LATER_SNAPSHOT);
    LoneSnapshot(Fresh(horizon));
    SmallMap(x, Key(5, 5));
    SmallMap(Entry(Key(5, 5), EARLY_EVENT), Key(5, 5));
    var h := ApplySnapshot(TEST_DOMAIN, Fresh(horizon), LATER_SNAPSHOT);
    PlantsOne(h);
  }

  lemma PlantsOne(h: History<TestSnapshot, TestEvent>)
    requires WellFormed(h) && h.events == [] && h.checkpoints == [Entry(Key(10, 1), LATER_SNAPSHOT)]
    ensures Entry(Key(5, 5), LATER_SNAPSHOT) in ApplyEvent(TEST_DOMAIN, h, EARLY_EVENT).checkpoints
  {
    hide Rank, Cut, Has, Below, From, After, UpTo, Insert, Sorted, IsLatest, AppendCheckpoint;
    var y, m := Entry(Key(5, 5), EARLY_EVENT), h.checkpoints;
    SmallMap(m[0], Key(5, 5));
    SmallMap(y, Key(5, 5));
    LatestMeansEnd(h.events, Key(5, 5), EARLY_EVENT);
    InsertAtEnd(h.events, Key(5, 5), EARLY_EVENT);
    assert h.events + [y] == [y];
    PlantsLast(TEST_DOMAIN, h.base, m, [y], Key(5, 5), h.interval);
    InsertContents(m, Key(5, 5), LATER_SNAPSHOT);
  }
}
