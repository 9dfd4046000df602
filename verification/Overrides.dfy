/** What an authoritative snapshot fixes, whatever state the history was in before. */
module Overrides {
  import opened Keys
  import opened OrderedMaps
  import opened MapFacts
  import opened Domains
  import opened Multiples
  import opened Checkpoints
  import opened Chains
  import opened Histories
  import opened Timelines
  import opened Refinement
  import opened Queries
  import opened EventRuns

  /** The part of a history at or after a key: checkpoints from it on, events strictly after it. */
  function Upper<S, E>(h: History<S, E>, key: Key): (u: History<S, E>)
    requires WellFormed(h)
    ensures WellFormed(u)
  {
    h.(events := After(h.events, Excluded(key)), checkpoints := From(h.checkpoints, key))
  }

  /** The timeline that consists of one authoritative snapshot and the events after it. */
  function Overriding<S, E>(h: History<S, E>, key: Key, s: S): (t: Timeline<S, E>)
    requires WellFormed(h)
    ensures Ordered(t)
  {
    Timeline(h.id, h.base, [Entry(key, s)], After(h.events, Excluded(key)), h.now, h.horizon)
  }

  /** Installing a snapshot makes the upper part canonical with the snapshot as its origin. */
  lemma SnapshotRules<S, E>(d: Domain<S, E>, h: History<S, E>, s: S)
    requires WellFormed(h) && d.snapshotId(s) == h.id
    ensures var key, h' := SnapshotKey(d, h.id, s), ApplySnapshot(d, h, s);
      Represents(d, Upper(h', key), Overriding(h', key, s))
  {
    hide Rebuild, Below, After, From, Sorted, ApplySnapshot, Has, Chain;
    var key := SnapshotKey(d, h.id, s);
    InstalledParts(d, h, s);
    var r := Rebuild(d, s, After(h.events, Excluded(key)), h.interval);
    SplitAtEntry(Below(h.checkpoints, key), Entry(key, s), r);
    ChainOfOne(d, h.base, key, s, h.events, h.interval);
  }

  lemma ChainOfOne<S, E>(d: Domain<S, E>, base: S, key: Key, s: S, events: seq<Entry<E>>, k: nat)
    requires k > 0 && Sorted(events)
    ensures var tail := After(events, Excluded(key));
      Chain(d, base, [Entry(key, s)], tail, k) == [Entry(key, s)] + Rebuild(d, s, tail, k)
  {
    hide Fold, Cut;
    var tail := After(events, Excluded(key));
    RankIs(tail, key, 0);
    CutIs(tail, Excluded(key), 0);
    ChainSettled(d, base, [Entry(key, s)], tail, k);
    ChainNoAuths<S, E>(d, base, [], k);
    assert [Entry(key, s)][..0] == [];
  }

  /** An event above the snapshot acts on the upper part alone. */
  lemma EventActsAbove<S, E>(d: Domain<S, E>, h: History<S, E>, key: Key, s: S, e: E)
    requires WellFormed(h) && Less(key, KeyOf(d, e))
    requires From(h.checkpoints, key) != [] && From(h.checkpoints, key)[0] == Entry(key, s)
    ensures Upper(ApplyEvent(d, h, e), key) == ApplyEvent(d, Upper(h, key), e)
    ensures var c := From(ApplyEvent(d, h, e).checkpoints, key); c != [] && c[0] == Entry(key, s)
  {
    hide Rank, Cut, Insert, Has, IsLatest, After, From, Below, Sorted, Resume, AppendCheckpoint;
    var ek, u := KeyOf(d, e), Upper(h, key);
    InsertAfter(h.events, key, ek, e);
    AfterKeeps(h.events, key, ek);
    if !Has(h.events, ek) {
      var events := Insert(h.events, ek, e);
      LatestMeansEnd(h.events, ek, e);
      LatestMeansEnd(u.events, ek, e);
      if From(h.events, ek) == [] {
        AppendAbove(d, h.base, h.checkpoints, events, key, ek, h.interval);
      } else {
        ResumeAbove(d, h.base, h.checkpoints, events, key, ek, h.interval);
      }
    }
  }

  lemma AppendAbove<S, E>(
      d: Domain<S, E>, base: S, m: seq<Entry<S>>, events: seq<Entry<E>>, key: Key, ek: Key, k: nat)
    requires k > 0 && Sorted(m) && Sorted(events) && Less(key, ek)
    requires From(m, key) != [] && From(m, key)[0].key == key
    ensures var r := AppendCheckpoint(d, base, m, events, ek, k);
      && From(r, key) == AppendCheckpoint(d, base, From(m, key), After(events, Excluded(key)), ek, k)
      && From(r, key) != [] && From(r, key)[0] == From(m, key)[0]
  {
    hide Fold, Rank, Cut, Multiple;
    var a := Latest(base, m);
    assert a == Latest(base, From(m, key));
    FromLast(m, key);
    AfterAfter(events, key, a.bound.key);
    var v := Fold(d, a.state, After(events, a.bound));
    InsertFrom(m, key, ek, v);
  }

  lemma ResumeAbove<S, E>(
      d: Domain<S, E>, base: S, m: seq<Entry<S>>, events: seq<Entry<E>>, key: Key, ek: Key, k: nat)
    requires k > 0 && Sorted(m) && Sorted(events) && Less(key, ek)
    requires From(m, key) != [] && From(m, key)[0].key == key
    ensures var r := Resume(d, base, Below(m, ek), events, k);
      && From(r, key) == Resume(d, base, Below(From(m, key), ek), After(events, Excluded(key)), k)
      && From(r, key) != [] && From(r, key)[0] == From(m, key)[0]
  {
    hide Rebuild, Rank, Cut, Sorted;
    var keep, keep' := Below(m, ek), Below(From(m, key), ek);
    KeepAbove(m, key, ek);
    var a := Latest(base, keep);
    assert a == Latest(base, keep');
    AfterAfter(events, key, a.bound.key);
    var r := Rebuild(d, a.state, After(events, a.bound), k);
    ResumeSorted(d, base, keep, events, k);
    RebuildBeyond(d, base, keep, events, k, key);
    FromConcat(keep, r, key);
  }

  lemma RebuildBeyond<S, E>(d: Domain<S, E>, base: S, keep: seq<Entry<S>>, events: seq<Entry<E>>, k: nat, key: Key)
    requires k > 0 && Sorted(events) && keep != [] && !Less(keep[|keep| - 1].key, key)
    ensures var a := Latest(base, keep);
      var r := Rebuild(d, a.state, After(events, a.bound), k);
      r != [] ==> !Less(r[0].key, key)
  {
    hide Rebuild;
    var a := Latest(base, keep);
    var tail := After(events, a.bound);
    var r := Rebuild(d, a.state, tail, k);
    RebuildKeys(d, a.state, tail, k);
    if r != [] {
      assert r[0] in r;
      assert Beyond(a.bound, tail[0].key);
    }
  }

  lemma {:induction false} RunActsAbove<S, E>(
      d: Domain<S, E>, h: History<S, E>, key: Key, s: S, ops: seq<Op<S, E>>)
    requires WellFormed(h) && OnlyEvents(ops) && AllAbove(d, [Entry(key, s)], ops)
    requires From(h.checkpoints, key) != [] && From(h.checkpoints, key)[0] == Entry(key, s)
    ensures Upper(RunHistory(d, h, ops), key) == RunHistory(d, Upper(h, key), ops)
    ensures var c := From(RunHistory(d, h, ops).checkpoints, key); c != [] && c[0] == Entry(key, s)
  {
    hide ApplyEvent, Upper, From, Sorted;
    if ops != [] {
      var before, last := ops[..|ops| - 1], ops[|ops| - 1];
      assert last in ops && Entry(key, s) in [Entry(key, s)];
      RunActsAbove(d, h, key, s, before);
      EventActsAbove(d, RunHistory(d, h, before), key, s, last.event);
    }
  }

  /** Queries strictly above the snapshot see only the upper part. */
  lemma QueryAbove<S, E>(d: Domain<S, E>, h: History<S, E>, key: Key, s: S, time: int)
    requires WellFormed(h) && Less(key, QueryKey(h, time))
    requires From(h.checkpoints, key) != [] && From(h.checkpoints, key)[0] == Entry(key, s)
    requires Represents(d, Upper(h, key), Overriding(h, key, s))
    ensures SnapshotAt(d, h, time) == SnapshotAt(d, Upper(h, key), time)
  {
    hide Rank, Cut, Replay, Chain;
    var u, qk := Upper(h, key), QueryKey(h, time);
    UpToAbove(h.checkpoints, key, qk);
    var start := Latest(h.base, UpTo(h.checkpoints, qk));
    BelowAfter(h.events, Excluded(key), qk);
    AfterAfter(Below(h.events, qk), key, start.bound.key);
  }

  lemma UpToAbove<S>(m: seq<Entry<S>>, key: Key, above: Key)
    requires Sorted(m) && Less(key, above) && From(m, key) != [] && From(m, key)[0].key == key
    ensures var a, b := UpTo(m, above), UpTo(From(m, key), above);
      a != [] && b != [] && a[|a| - 1] == b[|b| - 1] && !Less(a[|a| - 1].key, key)
    ensures Has(From(m, key), above) <==> Has(m, above)
  {
  }

  /**
   * Authoritative override. Put `s` into a history in any state, then let events above it arrive in
   * any order: every later query folds, over `s`, the stored events strictly between `s` and the query
   * bound. It panics exactly when an event keyed at the bound sits at a checkpoint position counted
   * from `s`.
   */
  lemma OverrideAnswers<S(!new), E(!new)>(
      d: Domain<S, E>, h: History<S, E>, s: S, ops: seq<Op<S, E>>, time: int)
    requires WellFormed(h) && d.snapshotId(s) == h.id && Lawful(d) && OnlyEvents(ops)
    requires AllAbove(d, [Entry(SnapshotKey(d, h.id, s), s)], ops) && d.snapshotTime(s) < time
    ensures var h' := RunHistory(d, ApplySnapshot(d, h, s), ops);
      var later, bound := After(h'.events, Excluded(SnapshotKey(d, h.id, s))), Key(time, h.id);
      SnapshotAt(d, h', time)
      == if Has(later, bound) && (Rank(later, bound) + 1) % h.interval == 0 then RangePanic
         else Found(d.setTime(Replay(d, s, Below(later, bound)), time))
  {
    hide Rank, Cut, Has, Replay, Lawful, Chain, After, From, Below, Sorted;
    hide ApplySnapshot, RunHistory, Run, SafeRun, SnapshotAt;
    var key, h1 := SnapshotKey(d, h.id, s), ApplySnapshot(d, h, s);
    SnapshotFirst(d, h, s);
    SnapshotRules(d, h, s);
    var u, t := Upper(h1, key), Overriding(h1, key, s);
    RunActsAbove(d, h1, key, s, ops);
    EventRun(d, u, t, ops);
    RunKeepsInterval(d, h1, ops);
    var h', t' := RunHistory(d, h1, ops), Run(d, t, ops);
    assert t' == Overriding(h', key, s) by { RunFrame(d, h1, ops); }
    QueryAbove(d, h', key, s, time);
    QueryRefines(d, Upper(h', key), t', time);
    UpperParts(d, h', key, s);
    OverridePanics(d, h', key, s, Key(time, h.id));
    OverrideState(d, h', key, s, time);
  }

  /** Events leave the base, the clock and the horizon alone. */
  lemma {:induction false} RunFrame<S, E>(d: Domain<S, E>, h: History<S, E>, ops: seq<Op<S, E>>)
    requires WellFormed(h) && OnlyEvents(ops)
    ensures var h' := RunHistory(d, h, ops);
      h'.base == h.base && h'.now == h.now && h'.horizon == h.horizon && h'.id == h.id
  {
    hide EventsAfter, CheckpointsAfter, Sorted;
    if ops != [] {
      assert ops[|ops| - 1] in ops;
      RunFrame(d, h, ops[..|ops| - 1]);
    }
  }

  /** What is left after installing a snapshot: the checkpoints below it, it, and what is rebuilt from it. */
  lemma InstalledParts<S, E>(d: Domain<S, E>, h: History<S, E>, s: S)
    requires WellFormed(h) && d.snapshotId(s) == h.id
    ensures var key := SnapshotKey(d, h.id, s);
      ApplySnapshot(d, h, s)
      == h.(checkpoints := Below(h.checkpoints, key)
                           + ([Entry(key, s)] + Rebuild(d, s, After(h.events, Excluded(key)), h.interval)))
  {
    hide Rebuild, Below, After, Sorted;
    var key := SnapshotKey(d, h.id, s);
    var r := Rebuild(d, s, After(h.events, Excluded(key)), h.interval);
    ConcatAssociative(Below(h.checkpoints, key), [Entry(key, s)], r);
  }

  lemma SnapshotFirst<S, E>(d: Domain<S, E>, h: History<S, E>, s: S)
    requires WellFormed(h) && d.snapshotId(s) == h.id
    ensures var key, h' := SnapshotKey(d, h.id, s), ApplySnapshot(d, h, s);
      && WellFormed(h') && h'.id == h.id && h'.interval == h.interval
      && From(h'.checkpoints, key) != [] && From(h'.checkpoints, key)[0] == Entry(key, s)
  {
    hide Rebuild, Below, After, From, Sorted, ApplySnapshot, Has;
    var key := SnapshotKey(d, h.id, s);
    InstalledParts(d, h, s);
    var r := Rebuild(d, s, After(h.events, Excluded(key)), h.interval);
    SplitAtEntry(Below(h.checkpoints, key), Entry(key, s), r);
  }

  /** What represents the overriding timeline is the snapshot and the checkpoints rebuilt from it. */
  lemma UpperParts<S, E>(d: Domain<S, E>, h: History<S, E>, key: Key, s: S)
    requires WellFormed(h) && Represents(d, Upper(h, key), Overriding(h, key, s))
    ensures From(h.checkpoints, key)
         == [Entry(key, s)] + Rebuild(d, s, After(h.events, Excluded(key)), h.interval)
  {
    hide Chain, From, After, Sorted, Rebuild;
    ChainOfOne(d, h.base, key, s, h.events, h.interval);
  }

  lemma OverridePanics<S, E>(d: Domain<S, E>, h: History<S, E>, key: Key, s: S, bound: Key)
    requires WellFormed(h) && Less(key, bound)
    requires From(h.checkpoints, key)
          == [Entry(key, s)] + Rebuild(d, s, After(h.events, Excluded(key)), h.interval)
    ensures var later := After(h.events, Excluded(key));
      Has(From(h.checkpoints, key), bound) && h.rooted
      <==> Has(later, bound) && (Rank(later, bound) + 1) % h.interval == 0
  {
    hide Rank, Cut, Rebuild, Has, After, From, Sorted;
    var later := After(h.events, Excluded(key));
    var r := Rebuild(d, s, later, h.interval);
    RebuildHas(d, s, later, h.interval, bound);
    HasCons(Entry(key, s), r, bound);
    if Has(later, bound) {
      HasMeansSome(later, bound);
      AfterMeansSome(h.events, key);
    }
  }

  lemma OverrideState<S, E>(d: Domain<S, E>, h: History<S, E>, key: Key, s: S, time: int)
    requires WellFormed(h) && Less(key, Key(time, h.id))
    ensures StateAt(d, Overriding(h, key, s), time)
         == d.setTime(Replay(d, s, Below(After(h.events, Excluded(key)), Key(time, h.id))), time)
  {
    hide Replay, Rank, Cut, Below, After, UpTo;
    var t, bound := Overriding(h, key, s), Key(time, h.id);
    OneBelow(key, s, bound);
    BelowAfter(h.events, Excluded(key), bound);
    AfterAfter(Below(h.events, bound), key, key);
  }

  lemma OneBelow<S>(key: Key, s: S, bound: Key)
    requires Less(key, bound)
    ensures Sorted([Entry(key, s)]) && UpTo([Entry(key, s)], bound) == [Entry(key, s)]
  {
    CutIs([Entry(key, s)], Excluded(bound), 1);
  }

  /** Installing a snapshot leaves every query before its time as it was. */
  lemma OverrideKeepsEarlier<S, E>(d: Domain<S, E>, h: History<S, E>, s: S, time: int)
    requires WellFormed(h) && time < d.snapshotTime(s)
    ensures SnapshotAt(d, ApplySnapshot(d, h, s), time) == SnapshotAt(d, h, time)
  {
    hide Rank, Cut, Replay, Rebuild, Below, UpTo, After, Has, Sorted;
    if d.snapshotId(s) == h.id {
      var key, bound := SnapshotKey(d, h.id, s), QueryKey(h, time);
      var h' := ApplySnapshot(d, h, s);
      var low := Below(h.checkpoints, key);
      BelowIsPrefix(h.checkpoints, key);
      assert h'.checkpoints[..|low|] == low && h'.checkpoints[|low|] == Entry(key, s);
      SamePrefixUpTo(h'.checkpoints, low, bound);
      SamePrefixUpTo(h.checkpoints, low, bound);
    }
  }

  /** Every change an installed snapshot makes lies at or after the start of the span it announces. */
  lemma OverrideIsAnnounced<S, E>(d: Domain<S, E>, h: History<S, E>, s: S, time: int)
    requires WellFormed(h) && SnapshotAt(d, ApplySnapshot(d, h, s), time) != SnapshotAt(d, h, time)
    ensures |SnapshotNotice(d, h, s)| == 1
    ensures SnapshotNotice(d, h, s)[0].snapshotId == h.id && SnapshotNotice(d, h, s)[0].fromTime <= time
  {
    hide SnapshotAt, Resume;
    if time < d.snapshotTime(s) {
      OverrideKeepsEarlier(d, h, s, time);
    }
  }

  /** A query at exactly the snapshot's time returns it, but panics as soon as the event map has a root. */
  lemma QueryAtSnapshotTime<S, E>(d: Domain<S, E>, h: History<S, E>, s: S)
    requires WellFormed(h) && d.snapshotId(s) == h.id
    ensures SnapshotAt(d, ApplySnapshot(d, h, s), d.snapshotTime(s))
         == if h.rooted then RangePanic else Found(d.setTime(s, d.snapshotTime(s)))
  {
    hide Rebuild;
    var key, h' := SnapshotKey(d, h.id, s), ApplySnapshot(d, h, s);
    var n := |Below(h.checkpoints, key)|;
    assert h'.checkpoints[n] == Entry(key, s);
    RankIs(h'.checkpoints, key, n);
  }

  /**
   * The announced span runs to the latest stored event. It ends before it starts when the snapshot is
   * dated after every stored event.
   */
  lemma OverrideSpan<S, E>(d: Domain<S, E>, h: History<S, E>, s: S)
    requires WellFormed(h) && d.snapshotId(s) == h.id
    ensures |SnapshotNotice(d, h, s)| == 1
    ensures var notice := SnapshotNotice(d, h, s)[0];
      && notice.fromTime == d.snapshotTime(s)
      && (notice.fromTime <= notice.toTime
          <==> h.events == [] || d.snapshotTime(s) <= h.events[|h.events| - 1].key.time)
  {
  }

  /**
   * What the span misses: every query past its end and after the snapshot's date. From any state, such
   * a query answers the replay of the later events over the snapshot, and changes unless it did before.
   */
  lemma OverridePastSpan<S(!new), E(!new)>(d: Domain<S, E>, h: History<S, E>, s: S, time: int)
    requires WellFormed(h) && d.snapshotId(s) == h.id && Lawful(d) && d.snapshotTime(s) < time
    requires SnapshotNotice(d, h, s) != [] && SnapshotNotice(d, h, s)[0].toTime < time
    ensures SnapshotAt(d, ApplySnapshot(d, h, s), time)
         == Found(d.setTime(Replay(d, s, After(h.events, Excluded(SnapshotKey(d, h.id, s)))), time))
  {
    hide Rank, Cut, Has, Replay, Lawful, After, Below, Sorted, ApplySnapshot, SnapshotAt;
    var h', later := ApplySnapshot(d, h, s), After(h.events, Excluded(SnapshotKey(d, h.id, s)));
    OverrideAnswers(d, h, s, [], time);
    RunSnoc(d, h', [], SnapshotOp(s));
    InstalledParts(d, h, s);
    AllEarlier(h.events, SnapshotKey(d, h.id, s), Key(time, h.id));
  }

  lemma AllEarlier<V>(m: seq<Entry<V>>, key: Key, bound: Key)
    requires Sorted(m) && (m != [] ==> m[|m| - 1].key.time < bound.time)
    ensures var later := After(m, Excluded(key)); Below(later, bound) == later && !Has(later, bound)
  {
    var later := After(m, Excluded(key));
    forall i | 0 <= i < |later|
      ensures Less(later[i].key, bound)
    {
      var c := Cut(m, Excluded(key)) + i;
      assert c == |m| - 1 || Less(m[c].key, m[|m| - 1].key);
    }
    RankIs(later, bound, |later|);
  }
}
