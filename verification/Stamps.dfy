/** The times and keys that stored events, checkpoints, bases and answers carry. */
module Stamps {
  import opened Keys
  import opened OrderedMaps
  import opened MapFacts
  import opened Domains
  import opened Multiples
  import opened Checkpoints
  import opened Histories
  import opened Timelines
  import opened Refinement
  import opened Ledger
  import opened Transparency

  /** Reading the time gives what was set last. */
  ghost predicate TimeKept<S(!new), E>(d: Domain<S, E>) {
    forall s, t :: d.snapshotTime(d.setTime(s, t)) == t
  }

  /** Every event is stored under its own time and id. */
  ghost predicate Keyed<S, E>(d: Domain<S, E>, events: seq<Entry<E>>) {
    forall x | x in events :: x.key == Key(d.eventTime(x.value), d.eventId(x.value))
  }

  /** Every checkpoint carries the time of its key. */
  ghost predicate Stamped<S, E>(d: Domain<S, E>, checkpoints: seq<Entry<S>>) {
    forall c | c in checkpoints :: d.snapshotTime(c.value) == c.key.time
  }

  lemma EventKeyed<S, E>(d: Domain<S, E>, h: History<S, E>, e: E)
    requires WellFormed(h) && Keyed(d, h.events)
    ensures Keyed(d, ApplyEvent(d, h, e).events)
  {
    hide Insert, CheckpointsAfter, Sorted;
    InsertContents(h.events, KeyOf(d, e), e);
  }

  /** So in every state of every run of any mix of operations. */
  lemma {:induction false} RunKeyed<S, E>(d: Domain<S, E>, h: History<S, E>, ops: seq<Op<S, E>>)
    requires WellFormed(h) && Keyed(d, h.events)
    ensures Keyed(d, RunHistory(d, h, ops).events)
  {
    hide ApplyEvent, Keyed, Sorted;
    if ops != [] {
      var before, last := ops[..|ops| - 1], ops[|ops| - 1];
      RunKeyed(d, h, before);
      var h' := RunHistory(d, h, before);
      match last
      case EventOp(e) => EventKeyed(d, h', e);
      case SnapshotOp(s) =>
      case AdvanceOp(time) => KeyedPart(d, h'.events, DropKey(h', time));
    }
  }

  lemma KeyedPart<S, E>(d: Domain<S, E>, events: seq<Entry<E>>, key: Key)
    requires Sorted(events) && Keyed(d, events)
    ensures Keyed(d, From(events, key))
  {
  }

  /** A replay ends with the time of its last event. */
  lemma FoldTime<S(!new), E>(d: Domain<S, E>, s: S, es: seq<Entry<E>>)
    requires TimeKept(d) && es != []
    ensures d.snapshotTime(Fold(d, s, es)) == d.eventTime(es[|es| - 1].value)
  {
    var before, e := Fold(d, s, es[..|es| - 1]), es[|es| - 1].value;
    var x, t: int := d.apply(e, before), d.eventTime(e);
    assert d.snapshotTime(d.setTime(x, t)) == t;
  }

  lemma {:induction false} RebuildStamped<S(!new), E>(d: Domain<S, E>, s: S, es: seq<Entry<E>>, k: nat)
    requires k > 0 && TimeKept(d) && Keyed(d, es)
    ensures Stamped(d, Rebuild(d, s, es, k))
  {
    hide TimeKept, Fold;
    if es != [] {
      assert es[|es| - 1] in es;
      RebuildStamped(d, s, es[..|es| - 1], k);
      FoldTime(d, s, es);
    }
  }

  lemma ResumeStamped<S(!new), E>(
      d: Domain<S, E>, base: S, keep: seq<Entry<S>>, events: seq<Entry<E>>, k: nat)
    requires k > 0 && TimeKept(d) && Sorted(keep) && Sorted(events) && Stamped(d, keep) && Keyed(d, events)
    ensures Stamped(d, Resume(d, base, keep, events, k))
  {
    hide TimeKept, Rebuild, Cut, Sorted;
    var a := Latest(base, keep);
    RebuildStamped(d, a.state, After(events, a.bound), k);
  }

  /**
   * An event keeps the checkpoints dated if and only if it is safe, or the checkpoint it is planted from
   * has the event's own time.
   */
  lemma EventStampedExact<S(!new), E>(d: Domain<S, E>, h: History<S, E>, e: E)
    requires WellFormed(h) && TimeKept(d) && Keyed(d, h.events) && Stamped(d, h.checkpoints)
    ensures !Safe(d, h, EventOp(e)) ==> h.checkpoints != []
    ensures Stamped(d, ApplyEvent(d, h, e).checkpoints)
       <==> Safe(d, h, EventOp(e)) || h.checkpoints[|h.checkpoints| - 1].key.time == d.eventTime(e)
  {
    hide TimeKept, Keyed, Stamped, Resume, AppendCheckpoint, Insert, Rank, Cut, Below, After, From, IsLatest, Sorted;
    var key := KeyOf(d, e);
    if !Has(h.events, key) {
      EventKeyed(d, h, e);
      LatestMeansEnd(h.events, key, e);
      if From(h.events, key) != [] {
        StampedPart(d, h.checkpoints, key);
        ResumeStamped(d, h.base, Below(h.checkpoints, key), Insert(h.events, key, e), h.interval);
      } else {
        InsertAtEnd(h.events, key, e);
        AppendStampedExact(d, h.base, h.checkpoints, h.events + [Entry(key, e)], e, h.interval);
      }
    }
  }

  lemma StampedPart<S, E>(d: Domain<S, E>, m: seq<Entry<S>>, key: Key)
    requires Sorted(m) && Stamped(d, m)
    ensures Stamped(d, Below(m, key)) && Stamped(d, From(m, key))
  {
  }

  lemma AppendStampedExact<S(!new), E>(
      d: Domain<S, E>, base: S, m: seq<Entry<S>>, events: seq<Entry<E>>, e: E, k: nat)
    requires k > 0 && Sorted(m) && Sorted(events) && TimeKept(d) && Stamped(d, m)
    requires events != [] && events[|events| - 1] == Entry(KeyOf(d, e), e)
    ensures After(m, Excluded(KeyOf(d, e))) != [] ==> m != []
    ensures Stamped(d, AppendCheckpoint(d, base, m, events, KeyOf(d, e), k))
       <==> After(m, Excluded(KeyOf(d, e))) == [] || m[|m| - 1].key.time == d.eventTime(e)
  {
    hide TimeKept, Stamped, Insert, Cut, Rank, Has, After, Sorted, Fold, Multiple;
    var key, a := KeyOf(d, e), Latest(base, m);
    var tail := After(events, a.bound);
    AfterEnds(m, key);
    AfterEnds(events, key);
    if m == [] || Less(m[|m| - 1].key, key) {
      TailEnds(events, a.bound);
      FoldTime(d, a.state, tail);
    } else {
      NoneAfterLast(events, m[|m| - 1].key);
      LastStamped(d, m);
      FoldNothing(d, a.state, tail);
      MultipleIsMod(0, k);
      assert tail[..0] == [];
    }
    InsertStamped(d, m, key, Fold(d, a.state, tail));
  }

  lemma AfterEnds<V>(m: seq<Entry<V>>, key: Key)
    requires Sorted(m)
    ensures After(m, Excluded(key)) == [] <==> m == [] || !Less(key, m[|m| - 1].key)
  {
  }

  lemma TailEnds<V>(m: seq<Entry<V>>, b: Bound)
    requires Sorted(m) && m != [] && Beyond(b, m[|m| - 1].key)
    ensures var tail := After(m, b); tail != [] && tail[|tail| - 1] == m[|m| - 1]
  {
  }

  lemma LastStamped<S, E>(d: Domain<S, E>, m: seq<Entry<S>>)
    requires Stamped(d, m) && m != []
    ensures d.snapshotTime(m[|m| - 1].value) == m[|m| - 1].key.time
  {
    assert m[|m| - 1] in m;
  }

  lemma InsertStamped<S, E>(d: Domain<S, E>, m: seq<Entry<S>>, key: Key, v: S)
    requires Sorted(m) && Stamped(d, m)
    ensures Stamped(d, Insert(m, key, v)) <==> d.snapshotTime(v) == key.time
  {
    hide Rank, Cut, Insert;
    InsertContents(m, key, v);
  }

  lemma SnapshotStamped<S(!new), E>(d: Domain<S, E>, h: History<S, E>, s: S)
    requires WellFormed(h) && TimeKept(d) && Keyed(d, h.events) && Stamped(d, h.checkpoints)
    ensures Stamped(d, ApplySnapshot(d, h, s).checkpoints)
  {
    hide TimeKept, Resume, Rank, Sorted, Keyed;
    if d.snapshotId(s) == h.id {
      StampedPart(d, h.checkpoints, SnapshotKey(d, h.id, s));
      ResumeStamped(d, h.base, Overridden(h.checkpoints, SnapshotKey(d, h.id, s), s), h.events, h.interval);
    }
  }

  /** An advance promotes a base of the last dropped checkpoint's time, or leaves the base it had. */
  lemma PromotedTime<S, E>(d: Domain<S, E>, h: History<S, E>, time: int)
    requires WellFormed(h) && Stamped(d, h.checkpoints)
    ensures Stamped(d, Advance(h, time).checkpoints)
    ensures var dropped := Below(h.checkpoints, Key(h.now + time - h.horizon, 0));
      d.snapshotTime(Advance(h, time).base)
      == if dropped == [] then d.snapshotTime(h.base) else dropped[|dropped| - 1].key.time
  {
    hide Rank, Sorted, Stamped, Below, From;
    StampedPart(d, h.checkpoints, DropKey(h, time));
    if Below(h.checkpoints, DropKey(h, time)) != [] {
      LastStamped(d, Below(h.checkpoints, DropKey(h, time)));
    }
  }

  /** No event of the run arrives behind a later checkpoint. */
  predicate NeverBehind<S, E>(d: Domain<S, E>, h: History<S, E>, ops: seq<Op<S, E>>)
    requires WellFormed(h)
  {
    ops == [] ||
    (var before, last := ops[..|ops| - 1], ops[|ops| - 1];
     NeverBehind(d, h, before) && (last.EventOp? ==> Safe(d, RunHistory(d, h, before), last)))
  }

  /** Then every checkpoint of every state carries the time of its key, gaps or not. */
  lemma {:induction false} RunStamped<S(!new), E>(
      d: Domain<S, E>, s: S, now: int, horizon: int, k: nat, ops: seq<Op<S, E>>)
    requires k > 0 && TimeKept(d) && NeverBehind(d, New<S, E>(d, s, now, horizon, k), ops)
    ensures var h := RunHistory(d, New<S, E>(d, s, now, horizon, k), ops);
      Keyed(d, h.events) && forall c | c in h.checkpoints :: d.snapshotTime(c.value) == c.key.time
  {
    hide TimeKept, Keyed, Sorted, Safe, ApplyEvent, ApplySnapshot, Advance, New;
    var h0 := New<S, E>(d, s, now, horizon, k);
    FreshStamped<S, E>(d, s, now, horizon, k);
    RunKeyed(d, h0, ops);
    if ops != [] {
      var before, last := ops[..|ops| - 1], ops[|ops| - 1];
      RunStamped(d, s, now, horizon, k, before);
      var h := RunHistory(d, h0, before);
      match last
      case EventOp(e) => EventStampedExact(d, h, e);
      case SnapshotOp(a) => SnapshotStamped(d, h, a);
      case AdvanceOp(time) => PromotedTime(d, h, time);
    }
  }

  lemma FreshStamped<S, E>(d: Domain<S, E>, s: S, now: int, horizon: int, k: nat)
    requires k > 0
    ensures var h := New<S, E>(d, s, now, horizon, k); Keyed(d, h.events) && Stamped(d, h.checkpoints)
  {
  }

  /** Without authoritative snapshots no event ever arrives behind a later checkpoint. */
  lemma {:induction false} NoSnapshotsNeverBehind<S, E>(d: Domain<S, E>, h: History<S, E>, ops: seq<Op<S, E>>)
    requires CheckpointsOnEvents(h) && forall op | op in ops :: !op.SnapshotOp?
    ensures WellFormed(h) && NeverBehind(d, h, ops)
  {
    hide CheckpointsOnEvents, Safe, RunHistory;
    OnEventsWellFormed(h);
    if ops != [] {
      var before, last := ops[..|ops| - 1], ops[|ops| - 1];
      assert last in ops;
      NoSnapshotsNeverBehind(d, h, before);
      NoSnapshotsNoOverwrites(d, h, before);
      if last.EventOp? {
        OnEventsSafe(d, RunHistory(d, h, before), last.event);
      }
    }
  }

  /** An answer carries the time it was asked for. */
  lemma AnswerTime<S(!new), E>(d: Domain<S, E>, h: History<S, E>, time: int)
    requires WellFormed(h) && TimeKept(d) && SnapshotAt(d, h, time).Found?
    ensures d.snapshotTime(SnapshotAt(d, h, time).state) == time
  {
    hide Replay, Sorted, Has, Rank, Cut, Latest, UpTo;
    var start := Latest(h.base, UpTo(h.checkpoints, QueryKey(h, time)));
    var x := Replay(d, start.state, QueryTail(h, time));
    assert d.snapshotTime(d.setTime(x, time)) == time;
  }
}
