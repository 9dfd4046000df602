/** Which answers an event can change, and what a reader of the notifications may rely on. */
module Reconciliations {
  import opened Keys
  import opened OrderedMaps
  import opened MapFacts
  import opened Domains
  import opened Multiples
  import opened Checkpoints
  import opened Histories
  import opened Refinement
  import opened Spacing

  /** No rebuilt checkpoint comes before the k-th event of the stretch. */
  lemma {:induction false} RebuildFirst<S, E>(d: Domain<S, E>, s: S, es: seq<Entry<E>>, k: nat)
    requires k > 0 && Sorted(es)
    ensures var r := Rebuild(d, s, es, k); r != [] ==> k <= |es| && r[0].key == es[k - 1].key
  {
    hide Fold;
    if es != [] {
      var p := es[..|es| - 1];
      RebuildFirst(d, s, p, k);
      if Rebuild(d, s, p, k) == [] {
        NoBoundary(d, s, p, k);
        BoundarySucc(|p|, k);
        assert |p| < k;
      }
    }
  }

  lemma NoBoundary<S, E>(d: Domain<S, E>, s: S, es: seq<Entry<E>>, k: nat)
    requires k > 0 && Rebuild(d, s, es, k) == []
    ensures Boundary(|es|, k) == 0
  {
  }

  /** In a spaced history a late event rebuilds nothing below itself. */
  lemma LateCheckpointsAbove<S, E>(d: Domain<S, E>, h: History<S, E>, events: seq<Entry<E>>, key: Key)
    requires WellFormed(h) && Spaced(h.events, h.checkpoints, h.interval)
    requires Sorted(events) && Below(events, key) == Below(h.events, key)
    ensures var keep := Below(h.checkpoints, key);
      var r := Resume(d, h.base, keep, events, h.interval);
      keep <= r && (|keep| < |r| ==> !Less(r[|keep|].key, key))
  {
    hide Spaced, Rebuild, Rank, Cut;
    var keep := Below(h.checkpoints, key);
    var a := Latest(h.base, keep);
    var tail := After(events, a.bound);
    RebuildFirst(d, a.state, tail, h.interval);
    NoneBelow(h.base, h.checkpoints, key);
    FewBetween(h.events, h.checkpoints, h.interval, a.bound, key);
    BelowAfter(events, a.bound, key);
    LongPrefixReaches(tail, key, h.interval);
  }

  lemma LongPrefixReaches<V>(m: seq<Entry<V>>, key: Key, k: nat)
    requires k > 0 && Sorted(m) && |Below(m, key)| < k
    ensures k <= |m| ==> !Less(m[k - 1].key, key)
  {
  }

  /** What a query below the event's time looks at is not touched. */
  lemma EventLeavesBelow<S, E>(d: Domain<S, E>, h: History<S, E>, e: E, bound: Key)
    requires WellFormed(h) && Spaced(h.events, h.checkpoints, h.interval) && Less(bound, KeyOf(d, e))
    ensures var h' := ApplyEvent(d, h, e);
      && Below(h'.events, bound) == Below(h.events, bound)
      && UpTo(h'.checkpoints, bound) == UpTo(h.checkpoints, bound)
      && (Has(h'.checkpoints, bound) <==> Has(h.checkpoints, bound))
  {
    hide Rank, Cut, Insert, Spaced, Has, Resume, IsLatest, AppendCheckpoint, UpTo;
    var key := KeyOf(d, e);
    if !Has(h.events, key) {
      var events := Insert(h.events, key, e);
      InsertBelow(h.events, key, e);
      BelowBelow(h.events, bound, key);
      BelowBelow(events, bound, key);
      if IsLatest(events, key) {
        AppendLeavesBelow(d, h.base, h.checkpoints, events, key, h.interval, bound);
      } else {
        LateCheckpointsAbove(d, h, events, key);
        var keep := Below(h.checkpoints, key);
        BelowIsPrefix(h.checkpoints, key);
        SamePrefixUpTo(h.checkpoints, keep, bound);
        SamePrefixUpTo(Resume(d, h.base, keep, events, h.interval), keep, bound);
      }
    }
  }

  lemma AppendLeavesBelow<S, E>(
      d: Domain<S, E>, base: S, checkpoints: seq<Entry<S>>, events: seq<Entry<E>>, key: Key, k: nat, bound: Key)
    requires k > 0 && Sorted(checkpoints) && Sorted(events) && Less(bound, key)
    ensures var m := AppendCheckpoint(d, base, checkpoints, events, key, k);
      UpTo(m, bound) == UpTo(checkpoints, bound) && (Has(m, bound) <==> Has(checkpoints, bound))
  {
    hide Fold, Multiple, Rank, Cut, UpTo, Has, Insert;
    var a := Latest(base, checkpoints);
    InsertLeavesBelow(checkpoints, key, Fold(d, a.state, After(events, a.bound)), bound);
  }

  /**
   * An event never changes an answer before its own time, with exactly one exception: a checkpoint
   * at the query bound, harmless while the event map has no root, makes the query panic as soon as
   * an event gives it one.
   */
  lemma EarlierAnswersStay<S, E>(d: Domain<S, E>, h: History<S, E>, e: E, time: int)
    requires WellFormed(h) && Spaced(h.events, h.checkpoints, h.interval) && time < d.eventTime(e)
    ensures SnapshotAt(d, ApplyEvent(d, h, e), time) == SnapshotAt(d, h, time)
       <==> !(!h.rooted && Has(h.checkpoints, QueryKey(h, time)))
  {
    hide Spaced, Rank, Cut, Replay, CheckpointsAfter, Has;
    EventLeavesBelow(d, h, e, QueryKey(h, time));
    EventStored(d, h.events, e);
  }

  lemma EventStored<S, E>(d: Domain<S, E>, events: seq<Entry<E>>, e: E)
    requires Sorted(events)
    ensures EventsAfter(d, events, e) != []
  {
  }

  /** Every change of an answer before the latest known event is announced by a notification that covers it. */
  lemma ChangesAreAnnounced<S, E>(d: Domain<S, E>, h: History<S, E>, e: E, time: int)
    requires WellFormed(h) && Spaced(h.events, h.checkpoints, h.interval)
    requires h.events != [] && time < h.events[|h.events| - 1].key.time
    requires SnapshotAt(d, ApplyEvent(d, h, e), time) != SnapshotAt(d, h, time)
    ensures |EventNotice(d, h, e)| == 1
    ensures var notice := EventNotice(d, h, e)[0];
      notice.snapshotId == h.id && notice.fromTime <= time <= notice.toTime
  {
    hide Spaced, SnapshotAt, ApplyEvent;
    if time < d.eventTime(e) {
      EarlierAnswersStay(d, h, e, time);
    }
  }

  /**
   * The unsafe case, in full: a new latest event that arrives behind a later checkpoint plants a copy
   * of that later state at its own key, and queries up to the next checkpoint answer with it.
   */
  lemma EventBehindCheckpoint<S, E>(d: Domain<S, E>, h: History<S, E>, e: E, time: int)
    requires WellFormed(h) && From(h.events, KeyOf(d, e)) == []
    requires After(h.checkpoints, Excluded(KeyOf(d, e))) != []
    requires var later := After(h.checkpoints, Excluded(KeyOf(d, e)));
      Less(KeyOf(d, e), Key(time, h.id)) && Less(Key(time, h.id), later[0].key)
    ensures SnapshotAt(d, ApplyEvent(d, h, e), time)
         == Found(d.setTime(h.checkpoints[|h.checkpoints| - 1].value, time))
  {
    hide Fold;
    var key, bound, m := KeyOf(d, e), Key(time, h.id), h.checkpoints;
    var last := m[|m| - 1];
    AfterOfNothing(h.events, key);
    LatestMeansEnd(h.events, key, e);
    InsertAtEnd(h.events, key, e);
    var events := Insert(h.events, key, e);
    PlantsLast(d, h.base, m, events, key, h.interval);
    PlantedServes(m, key, last.value, bound);
    NothingPast(events, key, bound);
  }

  /**
   * Queries at or past the next checkpoint keep their answers, with the same exception as queries before
   * the event: a checkpoint at the bound itself turns into a panic when the event map had no root.
   */
  lemma LaterAnswersStay<S, E>(d: Domain<S, E>, h: History<S, E>, e: E, time: int)
    requires WellFormed(h) && From(h.events, KeyOf(d, e)) == []
    requires After(h.checkpoints, Excluded(KeyOf(d, e))) != []
    requires !Less(Key(time, h.id), After(h.checkpoints, Excluded(KeyOf(d, e)))[0].key)
    ensures SnapshotAt(d, ApplyEvent(d, h, e), time) == SnapshotAt(d, h, time)
       <==> !(!h.rooted && Has(h.checkpoints, QueryKey(h, time)))
  {
    hide Fold, Rank, Cut, Has, Insert, Sorted, Replay, IsLatest, AppendCheckpoint, Below, After, From;
    var key, bound, m := KeyOf(d, e), QueryKey(h, time), h.checkpoints;
    AfterOfNothing(h.events, key);
    LatestMeansEnd(h.events, key, e);
    InsertAtEnd(h.events, key, e);
    var events := Insert(h.events, key, e);
    AfterParts(m, key);
    PlantsLast(d, h.base, m, events, key, h.interval);
    var start := PlantedBefore(m, key, m[|m| - 1].value, bound);
    NothingPast(events, start.key, bound);
    NothingPast(h.events, start.key, bound) by { NothingFrom(h.events, key); }
  }

  /** What serves a query past the next checkpoint lies there or later. */
  lemma PlantedBefore<S>(m: seq<Entry<S>>, key: Key, v: S, bound: Key) returns (start: Entry<S>)
    requires Sorted(m) && After(m, Excluded(key)) != [] && !Less(bound, After(m, Excluded(key))[0].key)
    ensures Less(key, start.key)
    ensures var p, q := UpTo(Insert(m, key, v), bound), UpTo(m, bound);
      p != [] && q != [] && p[|p| - 1] == q[|q| - 1] == start
    ensures Has(Insert(m, key, v), bound) <==> Has(m, bound)
  {
    hide Rank, Cut, Has, Insert, Below, After, UpTo;
    var head, low, high := m[..Cut(m, Excluded(key))], Below(m, key) + [Entry(key, v)], After(m, Excluded(key));
    AfterParts(m, key);
    InsertParts(m, key, v);
    UpToConcat(head, high, bound);
    UpToConcat(low, high, bound);
    UpToReaches(high, bound);
    var q := UpTo(high, bound);
    start := q[|q| - 1];
    AfterParts(m, key);
    assert start in high by { UpToPrefix(high, bound); }
  }

  lemma PlantsLast<S, E>(
      d: Domain<S, E>, base: S, m: seq<Entry<S>>, events: seq<Entry<E>>, key: Key, k: nat)
    requires k > 0 && Sorted(m) && Sorted(events) && events != [] && events[|events| - 1].key == key
    requires After(m, Excluded(key)) != []
    ensures AppendCheckpoint(d, base, m, events, key, k) == Insert(m, key, m[|m| - 1].value)
  {
  }

  lemma PlantedServes<S>(m: seq<Entry<S>>, key: Key, v: S, bound: Key)
    requires Sorted(m) && Less(key, bound)
    requires After(m, Excluded(key)) != [] && Less(bound, After(m, Excluded(key))[0].key)
    ensures var r := Insert(m, key, v);
      UpTo(r, bound) == Below(m, key) + [Entry(key, v)] && !Has(r, bound)
  {
    var r, p := Insert(m, key, v), Below(m, key) + [Entry(key, v)];
    assert p[|p| - 1] == Entry(key, v);
    SamePrefixUpTo(r, p, bound);
    CutIs(p, Excluded(bound), |p|);
    RankIs(p, bound, |p|);
  }
}
