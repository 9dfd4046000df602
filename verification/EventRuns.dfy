/** Runs in which only events arrive, in any order and with duplicates. */
module EventRuns {
  import opened Keys
  import opened OrderedMaps
  import opened MapFacts
  import opened Domains
  import opened Multiples
  import opened Checkpoints
  import opened Chains
  import opened Histories
  import opened Timelines
  import opened Refinement
  import opened Queries
  import opened Ledger

  ghost predicate OnlyEvents<S, E>(ops: seq<Op<S, E>>) {
    forall op | op in ops :: op.EventOp?
  }

  /** Every authoritative snapshot in force lies below every arriving event. */
  ghost predicate AllAbove<S, E>(d: Domain<S, E>, auths: seq<Entry<S>>, ops: seq<Op<S, E>>) {
    forall a, op | a in auths && op in ops && op.EventOp? :: Less(a.key, KeyOf(d, op.event))
  }

  /** No checkpoint lies at or beyond a new latest event that is above the snapshots in force. */
  lemma EventIsSafe<S, E>(d: Domain<S, E>, h: History<S, E>, t: Timeline<S, E>, e: E)
    requires Represents(d, h, t) && forall a | a in t.auths :: Less(a.key, KeyOf(d, e))
    ensures Safe(d, h, EventOp(e)) && Record(d, t, e) == t.(events := Record(d, t, e).events)
    ensures !Overwrites(d, h.checkpoints, h.events, e)
    ensures From(h.events, KeyOf(d, e)) == [] ==> From(h.checkpoints, KeyOf(d, e)) == []
  {
    hide Chain, Insert, Rank, Cut, Has, IsLatest, From, After, Below, Sorted;
    var key := KeyOf(d, e);
    assert t.auths != [] ==> t.auths[|t.auths| - 1] in t.auths;
    AllBelow(t.auths, key);
    if From(h.events, key) == [] {
      NothingFrom(h.events, key);
      assert h.checkpoints != [] ==> Less(h.checkpoints[|h.checkpoints| - 1].key, key) by {
        ChainLastBelow(d, t.base, t.auths, t.events, h.interval, key);
      }
      AllBelow(h.checkpoints, key);
      AfterOfNothing(h.checkpoints, key);
    }
    if !Has(h.events, key) {
      LatestMeansEnd(h.events, key, e);
    }
  }

  lemma ChainLastBelow<S, E>(
      d: Domain<S, E>, base: S, auths: seq<Entry<S>>, es: seq<Entry<E>>, k: nat, key: Key)
    requires k > 0 && Sorted(es) && Sorted(auths)
    requires forall a | a in auths :: Less(a.key, key)
    requires es != [] ==> Less(es[|es| - 1].key, key)
    ensures var c := Chain(d, base, auths, es, k); c != [] ==> Less(c[|c| - 1].key, key)
  {
    hide Chain;
    ChainKeys(d, base, auths, es, k);
    var c := Chain(d, base, auths, es, k);
    if c != [] {
      assert c[|c| - 1] in c;
      if Has(es, c[|c| - 1].key) {
        var i :| 0 <= i < |es| && es[i].key == c[|c| - 1].key;
        assert i == |es| - 1 || Less(es[i].key, es[|es| - 1].key);
      }
    }
  }

  lemma {:induction false} EventRun<S, E>(
      d: Domain<S, E>, h: History<S, E>, t: Timeline<S, E>, ops: seq<Op<S, E>>)
    requires Represents(d, h, t) && OnlyEvents(ops) && AllAbove(d, t.auths, ops)
    ensures SafeRun(d, h, ops) && Represents(d, RunHistory(d, h, ops), Run(d, t, ops))
    ensures Run(d, t, ops) == t.(events := Run(d, t, ops).events)
  {
    hide Safe, Chain, Sorted, ApplyEvent, Record;
    if ops != [] {
      var before := ops[..|ops| - 1];
      EventRun(d, h, t, before);
      var h', t', op := RunHistory(d, h, before), Run(d, t, before), ops[|ops| - 1];
      assert op in ops;
      EventIsSafe(d, h', t', op.event);
      DoRefines(d, h', t', op);
    }
  }

  /**
   * On a newest event the append branch leaves what the invalidate-and-replay branch would, and returns
   * the byte delta of that branch: the event, plus the checkpoints afterwards, minus those before.
   */
  lemma FastPathIsSlowPath<S, E>(
      d: Domain<S, E>, s: S, now: int, horizon: int, k: nat, ops: seq<Op<S, E>>, e: E)
    requires k > 0 && OnlyEvents(ops)
    ensures var h := RunHistory(d, New<S, E>(d, s, now, horizon, k), ops);
      var key, h' := KeyOf(d, e), ApplyEvent(d, h, e);
      From(h.events, key) == [] ==>
        var replayed := Resume(d, h.base, Below(h.checkpoints, key), h'.events, k);
        && h'.checkpoints == replayed
        && OpDelta(d, h, EventOp(e))
           == d.eventSize(e) + Bytes(d.snapshotSize, replayed) - Bytes(d.snapshotSize, h.checkpoints)
  {
    hide Bytes, New, Start, Chain, Sorted, Rank, Cut, Resume, AppendCheckpoint, Run, RunHistory, SafeRun;
    var h0, t0 := New<S, E>(d, s, now, horizon, k), Start<S, E>(d, s, now, horizon);
    NewRepresents<S, E>(d, s, now, horizon, k);
    NewFields<S, E>(d, s, now, horizon, k);
    EventRun(d, h0, t0, ops);
    RunKeepsInterval(d, h0, ops);
    var h, t := RunHistory(d, h0, ops), Run(d, t0, ops);
    var key := KeyOf(d, e);
    if From(h.events, key) == [] {
      EventIsSafe(d, h, t, e);
      AppendIsReplay(d, h, t, e);
      AfterOfNothing(h.events, key);
      LatestMeansEnd(h.events, key, e);
      InsertAtEnd(h.events, key, e);
      BytesSnoc(d.eventSize, h.events, Entry(key, e));
    }
  }

  lemma BytesSnoc<V>(size: V -> nat, m: seq<Entry<V>>, x: Entry<V>)
    ensures Bytes(size, m + [x]) == Bytes(size, m) + size(x.value)
  {
    assert (m + [x])[..|m|] == m;
  }

  lemma NewRepresents<S, E>(d: Domain<S, E>, s: S, now: int, horizon: int, k: nat)
    requires k > 0
    ensures Represents(d, New<S, E>(d, s, now, horizon, k), Start<S, E>(d, s, now, horizon))
  {
  }

  /**
   * Canonical form: whatever the order of arrival, the checkpoints are those of one full replay of
   * the stored events from the base.
   */
  lemma Canonical<S, E>(d: Domain<S, E>, s: S, now: int, horizon: int, k: nat, ops: seq<Op<S, E>>)
    requires k > 0 && OnlyEvents(ops)
    ensures var h := RunHistory(d, New<S, E>(d, s, now, horizon, k), ops);
      && h.base == d.setTime(s, 0) && h.interval == k
      && h.checkpoints == Rebuild(d, h.base, h.events, k)
  {
    hide Rebuild, Chain, Sorted, Start, New;
    var h, t := New<S, E>(d, s, now, horizon, k), Start<S, E>(d, s, now, horizon);
    NewRepresents<S, E>(d, s, now, horizon, k);
    NewFields<S, E>(d, s, now, horizon, k);
    EventRun(d, h, t, ops);
    RunKeepsInterval(d, h, ops);
    ChainNoAuths(d, t.base, Run(d, t, ops).events, k);
  }

  lemma NewFields<S, E>(d: Domain<S, E>, s: S, now: int, horizon: int, k: nat)
    requires k > 0
    ensures var h, t := New<S, E>(d, s, now, horizon, k), Start<S, E>(d, s, now, horizon);
      && h.interval == k && h.id == d.snapshotId(s) && h.events == [] && h.checkpoints == []
      && t == Timeline(d.snapshotId(s), d.setTime(s, 0), [], [], now, horizon)
  {
  }

  /** The checkpoints of a replay: the k-th, 2k-th, 3k-th, ... event, each with the fold up to it. */
  lemma CheckpointEveryKth<S, E>(d: Domain<S, E>, s: S, es: seq<Entry<E>>, k: nat)
    requires k > 0
    ensures var r := Rebuild(d, s, es, k);
      && |r| == |es| / k
      && forall n | 0 < n <= |es| && n % k == 0 ::
           0 < n / k <= |r| && r[n / k - 1] == Entry(es[n - 1].key, Fold(d, s, es[..n]))
  {
    hide Rebuild, Fold, Multiple, Quotient;
    MultipleIsMod(|es|, k);
    RebuildPositions(d, s, es, k);
    var r := Rebuild(d, s, es, k);
    forall n: nat | 0 < n <= |es| && n % k == 0
      ensures 0 < n / k <= |r| && r[n / k - 1] == Entry(es[n - 1].key, Fold(d, s, es[..n]))
    {
      MultipleIsMod(n, k);
    }
  }

  lemma {:induction false} RebuildPositions<S, E>(d: Domain<S, E>, s: S, es: seq<Entry<E>>, k: nat)
    requires k > 0
    ensures var r := Rebuild(d, s, es, k);
      && |r| == Quotient(|es|, k)
      && forall n | 0 < n <= |es| && Multiple(n, k) ::
           0 < Quotient(n, k) <= |r| && r[Quotient(n, k) - 1] == Entry(es[n - 1].key, Fold(d, s, es[..n]))
  {
    hide Multiple, Fold, Quotient;
    QuotientOfNothing(k);
    if es != [] {
      var n := |es| - 1;
      var p := es[..n];
      RebuildPositions(d, s, p, k);
      QuotientSucc(n, k);
      var r := Rebuild(d, s, es, k);
      forall m | 0 < m <= |es| && Multiple(m, k)
        ensures 0 < Quotient(m, k) <= |r| && r[Quotient(m, k) - 1] == Entry(es[m - 1].key, Fold(d, s, es[..m]))
      {
        if m < |es| {
          assert p[..m] == es[..m];
        } else {
          assert es[..m] == es;
        }
      }
    }
  }

  /** A key names one event. */
  ghost predicate KeysDetermine<S, E>(d: Domain<S, E>, ops: seq<Op<S, E>>) {
    forall a, b | a in ops && b in ops && a.EventOp? && b.EventOp? && KeyOf(d, a.event) == KeyOf(d, b.event) :: a == b
  }

  lemma {:induction false} RecordedEvents<S, E>(d: Domain<S, E>, t: Timeline<S, E>, ops: seq<Op<S, E>>)
    requires Ordered(t) && t.events == [] && OnlyEvents(ops) && KeysDetermine(d, ops)
    ensures forall x :: x in Run(d, t, ops).events <==> x.key == KeyOf(d, x.value) && Op<S, E>.EventOp(x.value) in ops
  {
    hide Insert, Sorted, Record;
    if ops != [] {
      var before, last := ops[..|ops| - 1], ops[|ops| - 1];
      assert last in ops;
      RecordedEvents(d, t, before);
      var t' := Run(d, t, before);
      var key := KeyOf(d, last.event);
      RecordContents(d, t', last.event);
      assert forall op | op in ops :: op in before || op == last;
      var y :| y in Record(d, t', last.event).events && y.key == key && (y in t'.events || y == Entry(key, last.event));
      assert y == Entry(key, last.event) by {
        if y in t'.events { assert Op<S, E>.EventOp(y.value) in ops; }
      }
      forall x
        ensures x in Run(d, t, ops).events <==> x.key == KeyOf(d, x.value) && Op<S, E>.EventOp(x.value) in ops
      {
        if x in t'.events { assert Op<S, E>.EventOp(x.value) in ops; }
        if Op<S, E>.EventOp(x.value) in ops && x.key == KeyOf(d, x.value) && x.value != last.event {
          assert Op<S, E>.EventOp(x.value) in before;
        }
      }
    }
  }

  /** Recording keeps what is stored and adds the event unless its key is taken. */
  lemma RecordContents<S, E>(d: Domain<S, E>, t: Timeline<S, E>, e: E)
    requires Ordered(t)
    ensures var key, t' := KeyOf(d, e), Record(d, t, e);
      && (forall x | x in t.events :: x in t'.events)
      && (forall x | x in t'.events :: x in t.events || x == Entry(key, e))
      && (exists x :: x in t'.events && x.key == key && (x in t.events || x == Entry(key, e)))
  {
    hide Insert;
    var key := KeyOf(d, e);
    if Has(t.events, key) {
      var i :| 0 <= i < |t.events| && t.events[i].key == key;
      assert t.events[i] in t.events;
    } else {
      InsertContents(t.events, key, e);
      assert Record(d, t, e).events == Insert(t.events, key, e);
      assert Entry(key, e) in Record(d, t, e).events;
      forall x | x in t.events
        ensures x.key != key
      {
        var i :| 0 <= i < |t.events| && t.events[i] == x;
      }
    }
  }

  /** Arrival order does not matter above the snapshots in force. */
  lemma AnyEventOrder<S, E>(
      d: Domain<S, E>, h: History<S, E>, t: Timeline<S, E>, xs: seq<Op<S, E>>, ys: seq<Op<S, E>>)
    requires Represents(d, h, t) && t.events == [] && OnlyEvents(xs) && KeysDetermine(d, xs)
    requires AllAbove(d, t.auths, xs) && forall op :: op in xs <==> op in ys
    ensures RunHistory(d, h, xs) == RunHistory(d, h, ys)
  {
    hide Chain, Sorted, Record, Run, RunHistory, SafeRun;
    EventRun(d, h, t, xs);
    EventRun(d, h, t, ys);
    RecordedEvents(d, t, xs);
    RecordedEvents(d, t, ys);
    SameEntries(Run(d, t, xs).events, Run(d, t, ys).events);
    RunKeepsInterval(d, h, xs);
    RunKeepsInterval(d, h, ys);
    assert ys == [] <==> forall op :: op !in ys by { if ys != [] { assert ys[0] in ys; } }
    if xs != [] {
      assert xs[0] in xs && xs[0].EventOp?;
      assert Entry(KeyOf(d, xs[0].event), xs[0].event) in Run(d, t, xs).events;
    }
  }

  /**
   * Order independence: two arrival sequences over the same events, permuted and with duplicates,
   * end in the same history and charge the same bytes.
   */
  lemma OrderIndependent<S, E>(
      d: Domain<S, E>, s1: S, s2: S, now: int, horizon: int, k: nat, xs: seq<Op<S, E>>, ys: seq<Op<S, E>>)
    requires k > 0 && OnlyEvents(xs) && KeysDetermine(d, xs)
    requires forall op :: op in xs <==> op in ys
    requires d.setTime(s1, 0) == d.setTime(s2, 0) && d.snapshotId(s1) == d.snapshotId(s2)
    ensures var h1, h2 := New<S, E>(d, s1, now, horizon, k), New<S, E>(d, s2, now, horizon, k);
      && RunHistory(d, h1, xs) == RunHistory(d, h2, ys)
      && RunDelta(d, h1, xs) == RunDelta(d, h2, ys)
  {
    hide New, Start, Chain, Sorted, Record, Run, RunHistory, SafeRun, Represents;
    var h := New<S, E>(d, s1, now, horizon, k);
    NewRepresents<S, E>(d, s1, now, horizon, k);
    NewFields<S, E>(d, s1, now, horizon, k);
    assert New<S, E>(d, s2, now, horizon, k) == h by { NewSame<S, E>(d, s1, s2, now, horizon, k); }
    AnyEventOrder(d, h, Start<S, E>(d, s1, now, horizon), xs, ys);
    NoSnapshotsNoOverwrites(d, h, xs);
    NoSnapshotsNoOverwrites(d, h, ys);
  }

  lemma NewSame<S, E>(d: Domain<S, E>, s1: S, s2: S, now: int, horizon: int, k: nat)
    requires k > 0 && d.setTime(s1, 0) == d.setTime(s2, 0) && d.snapshotId(s1) == d.snapshotId(s2)
    ensures New<S, E>(d, s1, now, horizon, k) == New<S, E>(d, s2, now, horizon, k)
  {
  }

  /** A rebuilt checkpoint sits at a key exactly when an event does and its rank is a boundary. */
  lemma {:induction false} RebuildHas<S, E>(d: Domain<S, E>, s: S, es: seq<Entry<E>>, k: nat, key: Key)
    requires k > 0 && Sorted(es)
    ensures Sorted(Rebuild(d, s, es, k))
    ensures Has(Rebuild(d, s, es, k), key) <==> Has(es, key) && (Rank(es, key) + 1) % k == 0
  {
    hide Fold, Multiple, Rank, Has, Sorted;
    RebuildKeys(d, s, es, k);
    if es == [] {
      HasNothing<E>(key);
      HasNothing<S>(key);
    } else {
      var p, last := es[..|es| - 1], es[|es| - 1];
      assert Sorted(p) && es == p + [last] by { SortedParts(es, |es| - 1); }
      RebuildHas(d, s, p, k, key);
      var r, x := Rebuild(d, s, p, k), Entry(last.key, Fold(d, s, es));
      MultipleIsMod(|es|, k);
      HasSnoc(p, last, key);
      assert Rebuild(d, s, es, k) == if Multiple(|es|, k) then r + [x] else r;
      if Multiple(|es|, k) {
        HasSnoc(r, x, key);
      }
    }
  }

  lemma HasNothing<V>(key: Key)
    ensures Sorted<V>([]) && !Has<V>([], key)
  {
  }

  /**
   * Query refinement: after any arrival of events a query answers the chronological fold of all
   * events below its bound, and it panics exactly when an event keyed at the bound is stored at a
   * checkpoint position.
   */
  lemma EventRunQuery<S(!new), E(!new)>(
      d: Domain<S, E>, s: S, now: int, horizon: int, k: nat, ops: seq<Op<S, E>>, time: int)
    requires k > 0 && OnlyEvents(ops) && Lawful(d)
    ensures var h := RunHistory(d, New<S, E>(d, s, now, horizon, k), ops);
      var bound := Key(time, d.snapshotId(s));
      SnapshotAt(d, h, time)
      == if Has(h.events, bound) && (Rank(h.events, bound) + 1) % k == 0 then RangePanic
         else Found(d.setTime(Replay(d, d.setTime(s, 0), Below(h.events, bound)), time))
  {
    hide New, Start, Chain, Sorted, Rank, Replay, Lawful, Rebuild, SnapshotAt, Run, RunHistory, SafeRun;
    var h0, t0 := New<S, E>(d, s, now, horizon, k), Start<S, E>(d, s, now, horizon);
    NewRepresents<S, E>(d, s, now, horizon, k);
    NewFields<S, E>(d, s, now, horizon, k);
    EventRun(d, h0, t0, ops);
    var h, t := RunHistory(d, h0, ops), Run(d, t0, ops);
    RunKeepsInterval(d, h0, ops);
    QueryRefines(d, h, t, time);
    ChainNoAuths(d, t.base, t.events, k);
    RebuildHas(d, t.base, t.events, k, Key(time, h.id));
    StateAtNoAuths(d, t, time);
  }

  lemma StateAtNoAuths<S, E>(d: Domain<S, E>, t: Timeline<S, E>, time: int)
    requires Ordered(t) && t.auths == []
    ensures StateAt(d, t, time) == d.setTime(Replay(d, t.base, Below(t.events, Key(time, t.id))), time)
  {
  }
}
