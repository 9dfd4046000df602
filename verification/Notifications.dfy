/** What reaches the reader of the notifications. */
module Notifications {
  import opened OrderedMaps
  import opened MapFacts
  import opened Domains
  import opened Histories
  import opened LocalSnapshotHistories
  import opened Timelines
  import opened Refinement
  import opened Spacing
  import opened Reconciliations
  import opened Overrides
  import opened EventRuns

  /** The notification one operation attempts to send. */
  function NoticesOf<S, E>(d: Domain<S, E>, h: History<S, E>, op: Op<S, E>): seq<Reconciliation>
    requires WellFormed(h)
  {
    match op
    case EventOp(e) => EventNotice(d, h, e)
    case SnapshotOp(s) => SnapshotNotice(d, h, s)
    case AdvanceOp(_) => []
  }

  /** All notifications a run attempts to send, in order. */
  function RunNotices<S, E>(d: Domain<S, E>, h: History<S, E>, ops: seq<Op<S, E>>): seq<Reconciliation>
    requires WellFormed(h)
  {
    if ops == [] then [] else
      var before, last := ops[..|ops| - 1], ops[|ops| - 1];
      RunNotices(d, h, before) + NoticesOf(d, RunHistory(d, h, before), last)
  }

  /** What waits in the queue after a run that nobody read from. */
  function RunQueue<S, E>(d: Domain<S, E>, h: History<S, E>, ops: seq<Op<S, E>>): seq<Reconciliation>
    requires WellFormed(h)
  {
    if ops == [] then [] else
      var before, last := ops[..|ops| - 1], ops[|ops| - 1];
      Sent(RunQueue(d, h, before), NoticesOf(d, RunHistory(d, h, before), last))
  }

  lemma AtMostOne<S, E>(d: Domain<S, E>, h: History<S, E>, op: Op<S, E>)
    requires WellFormed(h)
    ensures |NoticesOf(d, h, op)| <= 1
  {
  }

  /** The queue keeps the first thousand attempts, in order, and loses the others. */
  lemma {:induction false} QueueKeepsFirst<S, E>(d: Domain<S, E>, h: History<S, E>, ops: seq<Op<S, E>>)
    requires WellFormed(h)
    ensures var all := RunNotices(d, h, ops);
      RunQueue(d, h, ops) == if |all| <= 1000 then all else all[..1000]
  {
    hide Do, NoticesOf;
    if ops != [] {
      var before, last := ops[..|ops| - 1], ops[|ops| - 1];
      QueueKeepsFirst(d, h, before);
      AtMostOne(d, RunHistory(d, h, before), last);
    }
  }

  /** One attempt on a queue in any state, as other readers may have left it. */
  lemma AttemptExact(queue: seq<Reconciliation>, notice: Reconciliation)
    ensures |queue| < 1000 ==> Sent(queue, [notice]) == queue + [notice]
    ensures |queue| >= 1000 ==> Sent(queue, [notice]) == queue
    ensures Sent(queue, []) == queue
  {
  }

  /**
   * An event announces something exactly when it is dated before some stored event: once, from its own
   * time to that of the latest.
   */
  lemma EventNoticeExact<S, E>(d: Domain<S, E>, h: History<S, E>, e: E)
    requires WellFormed(h)
    ensures EventNotice(d, h, e) == [] <==> forall x | x in h.events :: x.key.time <= d.eventTime(e)
    ensures EventNotice(d, h, e) != [] ==>
      exists last :: last in h.events && (forall x | x in h.events :: x.key.time <= last.key.time)
        && d.eventTime(e) < last.key.time
        && EventNotice(d, h, e) == [Reconciliation(h.id, d.eventTime(e), last.key.time)]
  {
    if h.events != [] {
      var last := h.events[|h.events| - 1];
      assert last in h.events;
      LatestTime(h.events);
    }
  }

  lemma LatestTime<V>(m: seq<Entry<V>>)
    requires Sorted(m) && m != []
    ensures forall x | x in m :: x.key.time <= m[|m| - 1].key.time
  {
  }

  /** Times never go back. */
  ghost predicate InOrder<S, E>(d: Domain<S, E>, ops: seq<Op<S, E>>) {
    OnlyEvents(ops) && forall i, j | 0 <= i < j < |ops| :: d.eventTime(ops[i].event) <= d.eventTime(ops[j].event)
  }

  lemma {:induction false} SentTimes<S, E>(d: Domain<S, E>, h: History<S, E>, ops: seq<Op<S, E>>)
    requires WellFormed(h) && h.events == [] && OnlyEvents(ops)
    ensures forall x | x in RunHistory(d, h, ops).events ::
      exists i :: 0 <= i < |ops| && d.eventTime(ops[i].event) == x.key.time
  {
    hide CheckpointsAfter, Insert, Sorted, Has;
    if ops != [] {
      var before, last := ops[..|ops| - 1], ops[|ops| - 1];
      assert last in ops;
      SentTimes(d, h, before);
      var h' := RunHistory(d, h, before);
      InsertContents(h'.events, KeyOf(d, last.event), last.event);
      forall x | x in RunHistory(d, h, ops).events
        ensures exists i :: 0 <= i < |ops| && d.eventTime(ops[i].event) == x.key.time
      {
        if x in h'.events {
          var i :| 0 <= i < |before| && d.eventTime(before[i].event) == x.key.time;
          assert ops[i] == before[i];
        } else {
          assert d.eventTime(ops[|ops| - 1].event) == x.key.time;
        }
      }
    }
  }

  /** Events that arrive in order of time announce nothing at all. */
  lemma {:induction false} InOrderIsSilent<S, E>(d: Domain<S, E>, h: History<S, E>, ops: seq<Op<S, E>>)
    requires WellFormed(h) && h.events == [] && InOrder(d, ops)
    ensures RunNotices(d, h, ops) == [] && RunQueue(d, h, ops) == []
  {
    hide Do, EventNotice, Sorted;
    QueueKeepsFirst(d, h, ops);
    if ops != [] {
      var before, last := ops[..|ops| - 1], ops[|ops| - 1];
      assert last in ops;
      InOrderIsSilent(d, h, before);
      SentTimes(d, h, before);
      var h' := RunHistory(d, h, before);
      EventNoticeExact(d, h', last.event);
      forall x | x in h'.events
        ensures x.key.time <= d.eventTime(last.event)
      {
        var i :| 0 <= i < |before| && d.eventTime(before[i].event) == x.key.time;
        assert before[i] == ops[i];
      }
    }
  }

  /** The notification is the newest in the queue, and the others are still there. */
  predicate Delivered(queue: seq<Reconciliation>, queue': seq<Reconciliation>, notice: Reconciliation) {
    queue' == queue + [notice]
  }

  /**
   * Every change of an answer before the latest known event is announced in the queue: with less than a
   * thousand waiting, the newest entry covers it. With a thousand it is lost.
   */
  lemma ChangesAreDelivered<S, E>(
      d: Domain<S, E>, h: History<S, E>, e: E, time: int, queue: seq<Reconciliation>)
    requires WellFormed(h) && Spaced(h.events, h.checkpoints, h.interval)
    requires h.events != [] && time < h.events[|h.events| - 1].key.time
    requires SnapshotAt(d, ApplyEvent(d, h, e), time) != SnapshotAt(d, h, time)
    ensures var queue' := Sent(queue, EventNotice(d, h, e));
      if |queue| < 1000 then
        exists notice :: Delivered(queue, queue', notice)
          && notice.snapshotId == h.id && notice.fromTime <= time <= notice.toTime
      else queue' == queue
  {
    hide SnapshotAt, ApplyEvent, Spaced, EventNotice;
    ChangesAreAnnounced(d, h, e, time);
    var notice := EventNotice(d, h, e)[0];
    assert EventNotice(d, h, e) == [notice];
    AttemptExact(queue, notice);
    assert |queue| < 1000 ==> Delivered(queue, Sent(queue, [notice]), notice);
  }

  /** Likewise for what an installed snapshot changes, from its date on. */
  lemma OverrideIsDelivered<S, E>(d: Domain<S, E>, h: History<S, E>, s: S, time: int, queue: seq<Reconciliation>)
    requires WellFormed(h) && SnapshotAt(d, ApplySnapshot(d, h, s), time) != SnapshotAt(d, h, time)
    ensures var queue' := Sent(queue, SnapshotNotice(d, h, s));
      if |queue| < 1000 then
        exists notice :: Delivered(queue, queue', notice)
          && notice.snapshotId == h.id && notice.fromTime == d.snapshotTime(s) <= time
      else queue' == queue
  {
    hide SnapshotAt, ApplySnapshot;
    OverrideIsAnnounced(d, h, s, time);
    var notice := SnapshotNotice(d, h, s)[0];
    assert SnapshotNotice(d, h, s) == [notice];
    AttemptExact(queue, notice);
    assert |queue| < 1000 ==> Delivered(queue, Sent(queue, [notice]), notice);
  }

  /** A snapshot of the entity always attempts one, from its date to the latest stored event or its own date. */
  lemma SnapshotNoticeExact<S, E>(d: Domain<S, E>, h: History<S, E>, s: S)
    requires WellFormed(h)
    ensures d.snapshotId(s) != h.id ==> SnapshotNotice(d, h, s) == []
    ensures d.snapshotId(s) == h.id && h.events == [] ==>
      SnapshotNotice(d, h, s) == [Reconciliation(h.id, d.snapshotTime(s), d.snapshotTime(s))]
    ensures d.snapshotId(s) == h.id && h.events != [] ==>
      exists last :: last in h.events && (forall x | x in h.events :: x.key.time <= last.key.time)
        && SnapshotNotice(d, h, s) == [Reconciliation(h.id, d.snapshotTime(s), last.key.time)]
  {
    if h.events != [] {
      var last := h.events[|h.events| - 1];
      assert last in h.events;
      LatestTime(h.events);
    }
  }
}
