/** The per-snapshot history store, updated in place. */
module LocalSnapshotHistories {
  import opened Keys
  import opened OrderedMaps
  import opened MapFacts
  import opened Domains
  import opened Checkpoints
  import opened Histories
  import opened BTreeMaps
  import opened Apply

  const RECONCILIATION_CAPACITY: nat := 1000

  /** What `try_send` leaves in the bounded notification queue. */
  function Sent(queue: seq<Reconciliation>, notice: seq<Reconciliation>): seq<Reconciliation> {
    if notice != [] && |queue| < RECONCILIATION_CAPACITY then queue + notice else queue
  }

  /** Adds up the sizes of a map's values. */
  method TotalBytes<V>(size: V -> nat, m: seq<Entry<V>>) returns (total: int)
    ensures total == Bytes(size, m)
  {
    total := 0;
    for i := 0 to |m|
      invariant total == Bytes(size, m[..i])
    {
      assert m[..i + 1][..i] == m[..i];
      total := total + size(m[i].value);
    }
    assert m[..|m|] == m;
  }

  lemma FootprintSplit<V>(size: V -> nat, m: seq<Entry<V>>, key: Key)
    requires Sorted(m)
    ensures Bytes(size, m) == Bytes(size, Below(m, key)) + Bytes(size, From(m, key))
  {
    BelowFrom(m, key);
    BytesConcat(size, Below(m, key), From(m, key));
  }

  /** What an advance gives back. */
  lemma AdvanceBytes<S, E>(d: Domain<S, E>, h: History<S, E>, time: int)
    requires WellFormed(h)
    ensures Footprint(d, h) == Footprint(d, Histories.Advance(h, time))
                             + Bytes(d.eventSize, Below(h.events, DropKey(h, time)))
                             + Bytes(d.snapshotSize, Below(h.checkpoints, DropKey(h, time)))
  {
    hide Rank, Bytes, Below, From;
    FootprintSplit(d.eventSize, h.events, DropKey(h, time));
    FootprintSplit(d.snapshotSize, h.checkpoints, DropKey(h, time));
  }

  /** Splits a map at `key`, keeps the upper part and adds up the sizes of what is left behind. */
  method DropBelow<V>(size: V -> nat, m: BTreeMap<V>, key: Key) returns (kept: BTreeMap<V>, total: int)
    requires m.Valid()
    modifies m
    ensures m.Valid() && m.entries == Below(old(m.entries), key)
    ensures fresh(kept) && kept.Valid() && kept.entries == From(old(m.entries), key)
    ensures kept.rooted == (old(m.entries) != []) && total == Bytes(size, m.entries)
  {
    kept := m.SplitOff(key);
    total := TotalBytes(size, m.entries);
  }

  class LocalSnapshotHistory<S, E> {
    const d: Domain<S, E>
    const snapshotId: nat
    var baseSnapshot: S
    var checkpoints: BTreeMap<S>
    var events: BTreeMap<E>
    var checkpointInterval: nat
    var currentTime: int
    const lowerTimeHorizonDelta: int
    var reconciliations: seq<Reconciliation>
    ghost var applyCalls: nat

    ghost predicate Valid()
      reads this, events, checkpoints
    {
      && (checkpoints as object) != events
      && events.Valid() && checkpoints.Valid()
      && checkpointInterval > 0
    }

    /** The history this object holds, as a value. */
    ghost function Value(): (h: History<S, E>)
      requires Valid()
      reads this, events, checkpoints
      ensures WellFormed(h)
    {
      History(snapshotId, baseSnapshot, events.entries, events.rooted, checkpoints.entries,
              checkpointInterval, currentTime, lowerTimeHorizonDelta)
    }

    constructor (d: Domain<S, E>, snapshot: S, currentTime: int, lowerTimeHorizonDelta: int)
      ensures Valid() && fresh(events) && fresh(checkpoints) && this.d == d
      ensures Value() == New(d, snapshot, currentTime, lowerTimeHorizonDelta, CHECKPOINT_INTERVAL)
      ensures reconciliations == [] && applyCalls == 0
    {
      this.d := d;
      this.snapshotId := d.snapshotId(snapshot);
      this.baseSnapshot := d.setTime(snapshot, 0);
      this.checkpoints := new BTreeMap();
      this.events := new BTreeMap();
      this.checkpointInterval := CHECKPOINT_INTERVAL;
      this.currentTime := currentTime;
      this.lowerTimeHorizonDelta := lowerTimeHorizonDelta;
      this.reconciliations := [];
      this.applyCalls := 0;
    }

    /** Opens a history and returns it with the bytes its base takes. */
    static method Create(d: Domain<S, E>, snapshot: S, currentTime: int, lowerTimeHorizonDelta: int)
        returns (history: LocalSnapshotHistory<S, E>, baseSize: int)
      ensures fresh(history) && fresh(history.events) && fresh(history.checkpoints)
      ensures history.Valid() && history.d == d && history.reconciliations == [] && history.applyCalls == 0
      ensures history.Value() == New(d, snapshot, currentTime, lowerTimeHorizonDelta, CHECKPOINT_INTERVAL)
      ensures baseSize == d.snapshotSize(d.setTime(snapshot, 0))
    {
      history := new LocalSnapshotHistory(d, snapshot, currentTime, lowerTimeHorizonDelta);
      baseSize := d.snapshotSize(history.baseSnapshot);
    }

    method TrySend(notice: Reconciliation)
      modifies this`reconciliations
      ensures reconciliations == Sent(old(reconciliations), [notice])
    {
      if |reconciliations| < RECONCILIATION_CAPACITY {
        reconciliations := reconciliations + [notice];
      }
    }

    method Advance(time: int) returns (bytesDelta: int)
      requires Valid()
      modifies this, events, checkpoints
      ensures Valid() && fresh(events) && fresh(checkpoints)
      ensures Value() == Histories.Advance(old(Value()), time)
      ensures bytesDelta == Footprint(d, Value()) - old(Footprint(d, Value()))
      ensures reconciliations == old(reconciliations) && applyCalls == old(applyCalls)
    {
      hide Rank, Bytes, Sorted, Below, From, Cut, WellFormed, Footprint, Value, BTreeMap.Valid;
      AdvanceBytes(d, Value(), time);
      OpenValue();
      currentTime := currentTime + time;
      var dropTime := currentTime - lowerTimeHorizonDelta;
      var dropKey := Key(dropTime, 0);
      var keptEvents, eventBytes := DropBelow(d.eventSize, events, dropKey);
      bytesDelta := -eventBytes;
      var keptCheckpoints, checkpointBytes := DropBelow(d.snapshotSize, checkpoints, dropKey);
      if checkpoints.entries != [] {
        baseSnapshot := checkpoints.entries[|checkpoints.entries| - 1].value;
      }
      bytesDelta := bytesDelta - checkpointBytes;
      events := keptEvents;
      checkpoints := keptCheckpoints;
      OpenValue();
    }

    /** The fields of the value. */
    lemma OpenValue()
      requires Valid()
      ensures var h := Value();
        && h.id == snapshotId && h.base == baseSnapshot && h.events == events.entries && h.rooted == events.rooted
        && h.checkpoints == checkpoints.entries && h.interval == checkpointInterval && h.now == currentTime
        && h.horizon == lowerTimeHorizonDelta
      ensures WellFormed(Value()) && Sorted(events.entries) && Sorted(checkpoints.entries)
    {
    }

    method ApplyEvent(event: E) returns (bytesDelta: int)
      requires Valid()
      modifies this, events, checkpoints
      ensures Valid() && events == old(events) && checkpoints == old(checkpoints)
      ensures Value() == Histories.ApplyEvent(d, old(Value()), event)
      ensures bytesDelta == Footprint(d, Value()) - old(Footprint(d, Value()))
                          + OverwrittenBytes(d, old(Value()).checkpoints, old(Value()).events, event)
      ensures reconciliations == Sent(old(reconciliations), EventNotice(d, old(Value()), event))
      ensures applyCalls == old(applyCalls)
                          + old(ApplyCost(d, baseSnapshot, checkpoints.entries, events.entries, event,
                                          checkpointInterval))
    {
      hide EventsAfter, CheckpointsAfter, OverwrittenBytes, ApplyCost, Bytes;
      var eventTime := d.eventTime(event);
      var before := events.entries;
      ghost var applied;
      bytesDelta, applied := ApplyEventInPlace(d, event, baseSnapshot, checkpoints, events, checkpointInterval);
      applyCalls := applyCalls + applied;
      if before != [] {
        var latestTime := before[|before| - 1].key.time;
        if eventTime < latestTime {
          TrySend(Reconciliation(snapshotId, eventTime, latestTime));
        }
      }
    }

    method ApplySnapshot(snapshot: S) returns (bytesDelta: int)
      requires Valid()
      modifies this, events, checkpoints
      ensures Valid() && events == old(events) && checkpoints == old(checkpoints)
      ensures Value() == Histories.ApplySnapshot(d, old(Value()), snapshot)
      ensures bytesDelta == Footprint(d, Value()) - old(Footprint(d, Value()))
      ensures reconciliations == Sent(old(reconciliations), SnapshotNotice(d, old(Value()), snapshot))
      ensures applyCalls == old(applyCalls)
                          + if d.snapshotId(snapshot) != snapshotId then 0
                            else |After(events.entries, Excluded(SnapshotKey(d, snapshotId, snapshot)))|
    {
      if d.snapshotId(snapshot) != snapshotId {
        return 0;
      }
      var snapshotKey := Key(d.snapshotTime(snapshot), snapshotId);
      bytesDelta := OverrideInPlace(snapshot, snapshotKey);
      var latestTime := if events.entries == [] then d.snapshotTime(snapshot)
                        else events.entries[|events.entries| - 1].key.time;
      TrySend(Reconciliation(snapshotId, d.snapshotTime(snapshot), latestTime));
    }

    /** Replaces the checkpoints at or after `key` by `snapshot` and what replaying from it gives. */
    method OverrideInPlace(snapshot: S, key: Key) returns (bytesDelta: int)
      requires Valid()
      modifies this`applyCalls, checkpoints
      ensures Valid() && events.entries == old(events.entries)
      ensures checkpoints.entries == Resume(d, baseSnapshot, Overridden(old(checkpoints.entries), key, snapshot),
                                            events.entries, checkpointInterval)
      ensures bytesDelta == Bytes(d.snapshotSize, checkpoints.entries) - old(Bytes(d.snapshotSize, checkpoints.entries))
      ensures applyCalls == old(applyCalls) + |After(events.entries, Excluded(key))|
    {
      hide Rank, Cut, Has, After, Insert, Fold, Rebuild, Bytes, InsertAll, Below;
      bytesDelta := RemoveStale(d, checkpoints, key);
      ghost var low := checkpoints.entries;
      ghost var keep := Overridden(old(checkpoints.entries), key, snapshot);
      PutLast(d.snapshotSize, old(checkpoints.entries), key, snapshot);
      bytesDelta := bytesDelta + d.snapshotSize(snapshot);
      checkpoints.Insert(key, snapshot);
      ghost var r := Rebuild(d, snapshot, After(events.entries, Excluded(key)), checkpointInterval);
      var delta, applied := ReplayAndCheckpoint(d, snapshot, Excluded(key), checkpoints, events, checkpointInterval);
      bytesDelta := bytesDelta + delta;
      applyCalls := applyCalls + applied;
      ResumeSorted(d, baseSnapshot, keep, events.entries, checkpointInterval);
      InsertAllAppends(keep, r);
      BytesConcat(d.snapshotSize, keep, r);
    }

    /** Reconstructs the state at `time`; `RangePanic` stands for the panic of the range lookup. */
    method SnapshotAt(time: int) returns (answer: Answer<S>, ghost applied: nat)
      requires Valid()
      ensures answer == Histories.SnapshotAt(d, Value(), time)
      ensures answer.Found? ==> applied == |QueryTail(Value(), time)|
    {
      hide Rank, Cut, Has, Replay;
      applied := 0;
      var queryKey := Key(time, snapshotId);
      var before := UpTo(checkpoints.entries, queryKey);
      var start := Latest(baseSnapshot, before);
      if Has(checkpoints.entries, queryKey) && events.rooted {
        return RangePanic, 0;
      }
      var tail := After(Below(events.entries, queryKey), start.bound);
      var snapshot := start.state;
      var i := 0;
      assert tail[..0] == [];
      ReplayNone(d, snapshot);
      while i < |tail|
        invariant 0 <= i <= |tail| && applied == i
        invariant snapshot == Replay(d, start.state, tail[..i])
      {
        ReplayOne(d, start.state, tail, i);
        snapshot := d.apply(tail[i].value, snapshot);
        applied := applied + 1;
        i := i + 1;
      }
      assert tail[..i] == tail;
      answer := Found(d.setTime(snapshot, time));
    }
  }

  lemma PutLast<V>(size: V -> nat, m: seq<Entry<V>>, key: Key, value: V)
    requires Sorted(m)
    ensures Insert(Below(m, key), key, value) == Overridden(m, key, value)
    ensures Bytes(size, Overridden(m, key, value)) == Bytes(size, Below(m, key)) + size(value)
  {
  }

  lemma ReplayOne<S, E>(d: Domain<S, E>, s: S, es: seq<Entry<E>>, n: nat)
    requires n < |es|
    ensures Replay(d, s, es[..n + 1]) == d.apply(es[n].value, Replay(d, s, es[..n]))
  {
    assert es[..n + 1][..n] == es[..n];
  }
}
