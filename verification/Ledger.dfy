/** The byte deltas the operations return, added up over runs. */
module Ledger {
  import opened Keys
  import opened OrderedMaps
  import opened MapFacts
  import opened Domains
  import opened Histories
  import opened Timelines
  import opened Checkpoints
  import opened Refinement

  /** The delta one operation returns (see the contracts of LocalSnapshotHistory). */
  function OpDelta<S, E>(d: Domain<S, E>, h: History<S, E>, op: Op<S, E>): int
    requires WellFormed(h)
  {
    Footprint(d, Do(d, h, op)) - Footprint(d, h)
      + match op
        case EventOp(e) => OverwrittenBytes(d, h.checkpoints, h.events, e)
        case SnapshotOp(_) => 0
        case AdvanceOp(_) => 0
  }

  function RunDelta<S, E>(d: Domain<S, E>, h: History<S, E>, ops: seq<Op<S, E>>): int
    requires WellFormed(h)
  {
    if ops == [] then 0 else
      var before := ops[..|ops| - 1];
      RunDelta(d, h, before) + OpDelta(d, RunHistory(d, h, before), ops[|ops| - 1])
  }

  /** No new latest event arrives on a key that already holds a checkpoint. */
  predicate NeverOverwrites<S, E>(d: Domain<S, E>, h: History<S, E>, ops: seq<Op<S, E>>)
    requires WellFormed(h)
  {
    ops == [] ||
    (var before, last := ops[..|ops| - 1], ops[|ops| - 1];
     var h' := RunHistory(d, h, before);
     && NeverOverwrites(d, h, before)
     && (last.EventOp? ==> !Overwrites(d, h'.checkpoints, h'.events, last.event)))
  }

  /** Bytes of the checkpoints that were replaced in a run without being given back. */
  function OverwrittenInRun<S, E>(d: Domain<S, E>, h: History<S, E>, ops: seq<Op<S, E>>): nat
    requires WellFormed(h)
  {
    if ops == [] then 0 else
      var before, last := ops[..|ops| - 1], ops[|ops| - 1];
      var h' := RunHistory(d, h, before);
      OverwrittenInRun(d, h, before)
        + if last.EventOp? then OverwrittenBytes(d, h'.checkpoints, h'.events, last.event) else 0
  }

  /**
   * Over every run the ledger exceeds the bytes held by exactly the overwritten ones, so it never
   * undercounts, and it is exact when nothing is overwritten.
   */
  lemma {:induction false} LedgerExact<S, E>(d: Domain<S, E>, h: History<S, E>, ops: seq<Op<S, E>>)
    requires WellFormed(h)
    ensures RunDelta(d, h, ops)
         == Footprint(d, RunHistory(d, h, ops)) - Footprint(d, h) + OverwrittenInRun(d, h, ops)
    ensures NeverOverwrites(d, h, ops) ==> OverwrittenInRun(d, h, ops) == 0
  {
    hide Sorted, Overwrites, Footprint, Do;
    if ops != [] {
      LedgerExact(d, h, ops[..|ops| - 1]);
    }
  }

  /** With sizes that are never zero it is exact only then. */
  lemma {:induction false} DriftMeansOverwrite<S(!new), E(!new)>(d: Domain<S, E>, h: History<S, E>, ops: seq<Op<S, E>>)
    requires WellFormed(h) && forall s :: d.snapshotSize(s) > 0
    ensures NeverOverwrites(d, h, ops)
       <==> RunDelta(d, h, ops) == Footprint(d, RunHistory(d, h, ops)) - Footprint(d, h)
  {
    hide Sorted, Overwrites, OverwrittenBytes, Footprint, Do, OpDelta;
    LedgerExact(d, h, ops);
    if ops != [] {
      var before, last := ops[..|ops| - 1], ops[|ops| - 1];
      DriftMeansOverwrite(d, h, before);
      LedgerExact(d, h, before);
      var h' := RunHistory(d, h, before);
      if last.EventOp? {
        OverwriteCosts(d, h'.checkpoints, h'.events, last.event);
      }
    }
  }

  lemma OverwriteCosts<S(!new), E(!new)>(
      d: Domain<S, E>, checkpoints: seq<Entry<S>>, events: seq<Entry<E>>, e: E)
    requires Sorted(checkpoints) && Sorted(events) && forall s :: d.snapshotSize(s) > 0
    ensures OverwrittenBytes(d, checkpoints, events, e) == 0 <==> !Overwrites(d, checkpoints, events, e)
  {
  }

  /** Every checkpoint is keyed by a stored event. */
  ghost predicate CheckpointsOnEvents<S, E>(h: History<S, E>) {
    WellFormed(h) && forall c | c in h.checkpoints :: Has(h.events, c.key)
  }

  lemma OnEventsOverwritesNothing<S, E>(d: Domain<S, E>, h: History<S, E>, e: E)
    requires CheckpointsOnEvents(h)
    ensures !Overwrites(d, h.checkpoints, h.events, e) && OverwrittenBytes(d, h.checkpoints, h.events, e) == 0
  {
  }

  lemma HasAfterInsert<V>(m: seq<Entry<V>>, key: Key, v: V, other: Key)
    requires Sorted(m)
    ensures Has(m, other) || other == key ==> Has(Insert(m, key, v), other)
  {
    hide Insert, Rank;
    InsertContents(m, key, v);
    var r := Insert(m, key, v);
    var j :| 0 <= j < |r| && r[j] == Entry(key, v);
    if Has(m, other) && other != key {
      var i :| 0 <= i < |m| && m[i].key == other;
      assert m[i] in r;
    }
  }

  lemma EventStaysOnEvents<S, E>(d: Domain<S, E>, h: History<S, E>, e: E)
    requires CheckpointsOnEvents(h)
    ensures CheckpointsOnEvents(ApplyEvent(d, h, e))
  {
    hide Rank, Cut, Has, Insert, Sorted, Rebuild, Fold, IsLatest;
    var key, h' := KeyOf(d, e), ApplyEvent(d, h, e);
    if !Has(h.events, key) {
      forall c | c in h'.checkpoints
        ensures Has(h'.events, c.key)
      {
        HasAfterInsert(h.events, key, e, c.key);
        if IsLatest(h'.events, key) {
          var a := Latest(h.base, h.checkpoints);
          InsertContents(h.checkpoints, key, Fold(d, a.state, After(h'.events, a.bound)));
        } else {
          ResumeContents(d, h.base, Below(h.checkpoints, key), h'.events, h.interval, c);
          assert c in Below(h.checkpoints, key) ==> c in h.checkpoints;
        }
      }
    }
  }

  lemma ResumeContents<S, E>(
      d: Domain<S, E>, base: S, keep: seq<Entry<S>>, events: seq<Entry<E>>, k: nat, c: Entry<S>)
    requires k > 0 && Sorted(keep) && Sorted(events) && c in Resume(d, base, keep, events, k)
    ensures c in keep || Has(events, c.key)
  {
    hide Rebuild, Rank, Cut;
    var a := Latest(base, keep);
    var tail := After(events, a.bound);
    RebuildKeys(d, a.state, tail, k);
    if c !in keep {
      assert c in Rebuild(d, a.state, tail, k);
      var i :| 0 <= i < |tail| && tail[i].key == c.key;
      assert events[i + Cut(events, a.bound)] == tail[i];
    }
  }

  lemma AdvanceStaysOnEvents<S, E>(h: History<S, E>, time: int)
    requires CheckpointsOnEvents(h)
    ensures CheckpointsOnEvents(Advance(h, time))
  {
  }

  /** Runs of events and advances, gaps or not, never overwrite: their ledger is exact. */
  lemma {:induction false} NoSnapshotsNoOverwrites<S, E>(d: Domain<S, E>, h: History<S, E>, ops: seq<Op<S, E>>)
    requires CheckpointsOnEvents(h) && forall op | op in ops :: !op.SnapshotOp?
    ensures CheckpointsOnEvents(RunHistory(d, h, ops))
    ensures NeverOverwrites(d, h, ops)
    ensures RunDelta(d, h, ops) == Footprint(d, RunHistory(d, h, ops)) - Footprint(d, h)
  {
    hide Sorted, Overwrites, OverwrittenBytes, Footprint, ApplyEvent, Advance, CheckpointsOnEvents;
    OnEventsWellFormed(h);
    if ops != [] {
      var before, last := ops[..|ops| - 1], ops[|ops| - 1];
      assert last in ops;
      NoSnapshotsNoOverwrites(d, h, before);
      var h' := RunHistory(d, h, before);
      match last
      case EventOp(e) =>
        EventStaysOnEvents(d, h', e);
        OnEventsOverwritesNothing(d, h', e);
      case AdvanceOp(time) => AdvanceStaysOnEvents(h', time);
    }
  }

  lemma OnEventsWellFormed<S, E>(h: History<S, E>)
    requires CheckpointsOnEvents(h)
    ensures WellFormed(h)
  {
  }
}
