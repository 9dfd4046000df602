/**
 * A snapshot that opens a history. The worker does not apply it at its date: it becomes the base, stamped
 * with time zero (src/worker.rs:116-121, src/history.rs:91-116).
 */
module Openings {
  import opened Keys
  import opened OrderedMaps
  import opened MapFacts
  import opened Domains
  import opened Histories
  import opened Timelines
  import opened Refinement
  import opened EventRuns
  import opened Overrides
  import opened Exactness
  import opened Transparency
  import opened Workers

  /** A base stamped with time zero replays like the snapshot itself. */
  lemma StampedBase<S(!new), E(!new)>(d: Domain<S, E>, s: S, es: seq<Entry<E>>, time: int)
    requires Lawful(d)
    ensures d.setTime(Replay(d, d.setTime(s, 0), es), time) == d.setTime(Replay(d, s, es), time)
  {
    assert d.setTime(d.setTime(s, 0), 0) == d.setTime(s, 0);
    ReplaySame(d, d.setTime(s, 0), s, es);
    SameSetTime(d, Replay(d, d.setTime(s, 0), es), Replay(d, s, es), time);
  }

  /** What the opening snapshot and the events after it say. */
  function Dated<S, E>(d: Domain<S, E>, h: History<S, E>, s: S, time: int): S
    requires WellFormed(h)
  {
    StateAt(d, Overriding(h, SnapshotKey(d, h.id, s), s), time)
  }

  /**
   * Opened by `s`, a history in which only events arrive answers after the date of `s` what the snapshot
   * at its date says if and only if no stored event below the bound is keyed at or before the snapshot.
   */
  lemma OpeningExact<S(!new), E(!new)>(
      d: Domain<S, E>, tally: S -> nat, horizon: int, s: S, ops: seq<Op<S, E>>, time: int)
    requires Lawful(d) && Tallied(d, tally) && OnlyEvents(ops) && d.snapshotTime(s) < time
    ensures var h := RunHistory(d, Open<S, E>(d, horizon, s), ops);
      h.id == d.snapshotId(s) &&
      (SnapshotAt(d, h, time).Found? ==>
        (SnapshotAt(d, h, time) == Found(Dated(d, h, s, time))
         <==> UpTo(h.events, SnapshotKey(d, h.id, s)) == []))
  {
    hide Lawful, Tallied, RunHistory, SnapshotAt, StateAt, Replay, Sorted, Below, After, UpTo, Rank, Has, OnlyEvents;
    var h0 := Open<S, E>(d, horizon, s);
    RunKeepsInterval(d, h0, ops);
    var h := RunHistory(d, h0, ops);
    var sk, bound := SnapshotKey(d, h.id, s), Key(time, h.id);
    EventRunQuery(d, s, 0, horizon, CHECKPOINT_INTERVAL, ops, time);
    StampedBase(d, s, Below(h.events, bound), time);
    OverrideState(d, h, sk, s, time);
    SplitBelowAt(h.events, sk, bound);
    OmissionShows(d, tally, s, UpTo(h.events, sk), Below(After(h.events, Excluded(sk)), bound), time);
  }

  /** Stored events depend on nothing but the events that arrived. */
  lemma {:induction false} SameEvents<S, E>(d: Domain<S, E>, h1: History<S, E>, h2: History<S, E>, ops: seq<Op<S, E>>)
    requires WellFormed(h1) && WellFormed(h2) && h1.events == h2.events && OnlyEvents(ops)
    ensures RunHistory(d, h1, ops).events == RunHistory(d, h2, ops).events
    ensures forall x | x in RunHistory(d, h1, ops).events ::
      x in h1.events || (x.key == KeyOf(d, x.value) && Op<S, E>.EventOp(x.value) in ops)
  {
    hide Insert, Sorted, CheckpointsAfter, Has;
    if ops != [] {
      var before, last := ops[..|ops| - 1], ops[|ops| - 1];
      assert last in ops;
      SameEvents(d, h1, h2, before);
      var h := RunHistory(d, h1, before);
      InsertContents(h.events, KeyOf(d, last.event), last.event);
    }
  }

  /**
   * So opening a history with `s` and installing `s` in a fresh one come to the same, for queries after
   * its date, when every event that follows is keyed above it.
   */
  lemma OpeningIsOverride<S(!new), E(!new)>(
      d: Domain<S, E>, horizon: int, s0: S, s: S, ops: seq<Op<S, E>>, time: int)
    requires Lawful(d) && OnlyEvents(ops) && d.snapshotTime(s) < time && d.snapshotId(s0) == d.snapshotId(s)
    requires AllAbove(d, [Entry(SnapshotKey(d, d.snapshotId(s), s), s)], ops)
    ensures SnapshotAt(d, RunHistory(d, Open<S, E>(d, horizon, s), ops), time)
         == SnapshotAt(d, RunHistory(d, ApplySnapshot(d, Open<S, E>(d, horizon, s0), s), ops), time)
  {
    hide Lawful, RunHistory, SnapshotAt, Replay, Sorted, Below, After, UpTo, Rank, Has, ApplySnapshot;
    var h1, h2 := Open<S, E>(d, horizon, s), ApplySnapshot(d, Open<S, E>(d, horizon, s0), s);
    var id := d.snapshotId(s);
    var sk, bound := SnapshotKey(d, id, s), Key(time, id);
    FreshOverride(d, horizon, s0, s);
    EventRunQuery(d, s, 0, horizon, CHECKPOINT_INTERVAL, ops, time);
    OverrideAnswers(d, Open<S, E>(d, horizon, s0), s, ops, time);
    SameEvents(d, h1, h2, ops);
    var events := RunHistory(d, h1, ops).events;
    assert Entry(sk, s) in [Entry(sk, s)];
    AllAfter(events, sk);
    StampedBase(d, s, Below(events, bound), time);
    RunKeepsInterval(d, h2, ops);
  }

  lemma FreshOverride<S, E>(d: Domain<S, E>, horizon: int, s0: S, s: S)
    ensures var h := ApplySnapshot(d, Open<S, E>(d, horizon, s0), s);
      h.id == d.snapshotId(s0) && h.events == [] && h.interval == CHECKPOINT_INTERVAL
  {
  }

  /**
   * The timeline with the opening snapshot in force at its date: it takes older snapshots out of force,
   * and one sent later for the same key stays.
   */
  function Redated<S, E>(d: Domain<S, E>, t: Timeline<S, E>, s: S): (t': Timeline<S, E>)
    requires Ordered(t)
    ensures Ordered(t')
  {
    var key := SnapshotKey(d, t.id, s);
    var later := From(t.auths, key);
    t.(auths := if Has(t.auths, key) then later else Insert(later, key, s))
  }

  /** A snapshot in force at or after the date decides, whether or not the opening one has a date. */
  lemma LaterDecides<S, E>(d: Domain<S, E>, t: Timeline<S, E>, s: S, time: int)
    requires Ordered(t) && Less(SnapshotKey(d, t.id, s), Key(time, t.id))
    requires UpTo(From(t.auths, SnapshotKey(d, t.id, s)), Key(time, t.id)) != []
    ensures StateAt(d, Redated(d, t, s), time) == StateAt(d, t, time)
  {
    hide Rank, Cut, Has, Replay, Sorted, From, Insert, UpTo, Below, After;
    var key, bound := SnapshotKey(d, t.id, s), Key(time, t.id);
    UpToFrom(t.auths, key, bound);
    if !Has(t.auths, key) {
      InsertFirst(t.auths, key, s);
      UpToConcat([Entry(key, s)], From(t.auths, key), bound);
    }
  }

  lemma InsertFirst<V>(m: seq<Entry<V>>, key: Key, v: V)
    requires Sorted(m) && !Has(m, key)
    ensures Insert(From(m, key), key, v) == [Entry(key, v)] + From(m, key)
  {
    var later := From(m, key);
    RankIs(later, key, 0);
    CutIs(later, Excluded(key), 0);
  }

  /** With no snapshot in force the dated reading leaves out exactly the events up to the date. */
  lemma NoneDecides<S(!new), E(!new)>(
      d: Domain<S, E>, tally: S -> nat, t: Timeline<S, E>, s: S, time: int)
    requires Ordered(t) && Lawful(d) && Tallied(d, tally) && t.base == d.setTime(s, 0)
    requires Less(SnapshotKey(d, t.id, s), Key(time, t.id)) && UpTo(t.auths, Key(time, t.id)) == []
    ensures StateAt(d, Redated(d, t, s), time) == StateAt(d, t, time)
       <==> UpTo(t.events, SnapshotKey(d, t.id, s)) == []
  {
    hide Rank, Cut, Has, Replay, Sorted, From, Insert, UpTo, Below, After, Lawful, Tallied;
    var key, bound := SnapshotKey(d, t.id, s), Key(time, t.id);
    UpToFrom(t.auths, key, bound);
    NotHasReached(t.auths, key, bound);
    InsertFirst(t.auths, key, s);
    UpToConcat([Entry(key, s)], From(t.auths, key), bound);
    BelowAfter(t.events, Excluded(key), bound);
    AfterAll(Below(t.events, bound));
    StampedBase(d, s, Below(t.events, bound), time);
    SplitBelowAt(t.events, key, bound);
    OmissionShows(d, tally, s, UpTo(t.events, key), Below(After(t.events, Excluded(key)), bound), time);
  }

  lemma NotHasReached<V>(m: seq<Entry<V>>, key: Key, bound: Key)
    requires Sorted(m) && Less(key, bound) && UpTo(m, bound) == []
    ensures !Has(m, key)
  {
    assert forall i | 0 <= i < |m| :: Beyond(Excluded(bound), m[i].key);
  }

  lemma PerformBase<S, E>(d: Domain<S, E>, t: Timeline<S, E>, op: Op<S, E>)
    requires Ordered(t) && !op.AdvanceOp?
    ensures Perform(d, t, op).base == t.base && Perform(d, t, op).id == t.id
  {
    hide Sorted, Rank, Insert, IsLatest, Has, Below, From, After;
  }

  lemma {:induction false} UnprunedBase<S, E>(d: Domain<S, E>, t: Timeline<S, E>, ops: seq<Op<S, E>>)
    requires Ordered(t)
    ensures Run(d, t, Unpruned(ops)).base == t.base && Run(d, t, Unpruned(ops)).id == t.id
  {
    hide Sorted, Record, Override, Prune;
    if ops != [] {
      var before, last := ops[..|ops| - 1], ops[|ops| - 1];
      UnprunedBase(d, t, before);
      if !last.AdvanceOp? {
        assert Unpruned(ops)[..|Unpruned(ops)| - 1] == Unpruned(before);
        PerformBase(d, Run(d, t, Unpruned(before)), last);
      }
    }
  }

  /**
   * The same over every safe run of events, snapshots and advances, for queries after the date that
   * pruning has not reached: the answer is the dated one whenever a snapshot from the date on decides it,
   * and without any snapshot in force if and only if no event was sent that is keyed at or before the date.
   */
  lemma OpeningRunExact<S(!new), E(!new)>(
      d: Domain<S, E>, tally: S -> nat, horizon: int, s: S, ops: seq<Op<S, E>>, time: int)
    requires Lawful(d) && Tallied(d, tally) && SafeRun(d, Open<S, E>(d, horizon, s), ops)
    requires var t0 := Start<S, E>(d, s, 0, horizon);
      NeverTooOld(d, t0, ops) && AtOrAbove(FloorAfter(d, t0, ops), Key(time, t0.id))
    requires d.snapshotTime(s) < time
    ensures var h := RunHistory(d, Open<S, E>(d, horizon, s), ops);
      var t := Run(d, Start<S, E>(d, s, 0, horizon), Unpruned(ops));
      var key, bound := SnapshotKey(d, t.id, s), Key(time, t.id);
      SnapshotAt(d, h, time).Found? ==>
        && (UpTo(From(t.auths, key), bound) != [] ==>
              SnapshotAt(d, h, time) == Found(StateAt(d, Redated(d, t, s), time)))
        && (UpTo(t.auths, bound) == [] ==>
              (SnapshotAt(d, h, time) == Found(StateAt(d, Redated(d, t, s), time)) <==> UpTo(t.events, key) == []))
  {
    hide New, Start, Lawful, Tallied, SafeRun, NeverTooOld, FloorAfter, AtOrAbove, RunHistory, Run, Unpruned;
    hide SnapshotAt, StateAt, Redated, UpTo, From, Sorted, Represents, Has;
    var h0, t0 := Open<S, E>(d, horizon, s), Start<S, E>(d, s, 0, horizon);
    NewRepresents<S, E>(d, s, 0, horizon, CHECKPOINT_INTERVAL);
    NewFields<S, E>(d, s, 0, horizon, CHECKPOINT_INTERVAL);
    PruningTransparent(d, h0, t0, ops, time);
    UnprunedBase(d, t0, ops);
    var t := Run(d, t0, Unpruned(ops));
    if UpTo(From(t.auths, SnapshotKey(d, t.id, s)), Key(time, t.id)) != [] {
      LaterDecides(d, t, s, time);
    }
    if UpTo(t.auths, Key(time, t.id)) == [] {
      NoneDecides(d, tally, t, s, time);
    }
  }
}
