/** Bounded replay: no run of any mix of operations lets `interval` events pile up without a checkpoint. */
module Spacing {
  import opened Keys
  import opened OrderedMaps
  import opened MapFacts
  import opened Domains
  import opened Multiples
  import opened Checkpoints
  import opened Histories
  import opened Timelines
  import opened Refinement

  ghost predicate Covered<S>(checkpoints: seq<Entry<S>>, low: Key, high: Key) {
    exists c :: 0 <= c < |checkpoints| && !Less(checkpoints[c].key, low) && !Less(high, checkpoints[c].key)
  }

  /** Every `k` consecutive stored events have a checkpoint within their span. */
  ghost predicate Spaced<S, E>(events: seq<Entry<E>>, checkpoints: seq<Entry<S>>, k: nat)
    requires k > 0
  {
    forall i, j | 0 <= i && j == i + k - 1 && j < |events| :: Covered(checkpoints, events[i].key, events[j].key)
  }

  /** Entries strictly between two bounds. */
  function Between<V>(m: seq<Entry<V>>, low: Bound, high: Key): seq<Entry<V>>
    requires Sorted(m)
  {
    After(Below(m, high), low)
  }

  /** Hence fewer than `k` events lie between two bounds with no checkpoint strictly in between. */
  lemma FewBetween<S, E>(events: seq<Entry<E>>, checkpoints: seq<Entry<S>>, k: nat, low: Bound, high: Key)
    requires k > 0 && Sorted(events) && Spaced(events, checkpoints, k)
    requires forall c | 0 <= c < |checkpoints| :: !Beyond(low, checkpoints[c].key) || !Less(checkpoints[c].key, high)
    ensures |Between(events, low, high)| < k
  {
    hide Spaced, Rank, Cut;
    var below := Below(events, high);
    var i := Cut(below, low);
    var j := i + k - 1;
    if j < |below| {
      assert events[i] == below[i] && events[j] == below[j];
      BareWindow(events, checkpoints, k, i, j);
    }
  }

  lemma BareWindow<S, E>(events: seq<Entry<E>>, checkpoints: seq<Entry<S>>, k: nat, i: nat, j: nat)
    requires k > 0 && j == i + k - 1 && j < |events|
    requires forall c | 0 <= c < |checkpoints| ::
      Less(checkpoints[c].key, events[i].key) || Less(events[j].key, checkpoints[c].key)
    ensures !Spaced(events, checkpoints, k)
  {
    assert !Covered(checkpoints, events[i].key, events[j].key);
  }

  lemma FewAfter<S, E>(events: seq<Entry<E>>, checkpoints: seq<Entry<S>>, k: nat, low: Bound)
    requires k > 0 && Sorted(events) && Spaced(events, checkpoints, k)
    requires forall c | 0 <= c < |checkpoints| :: !Beyond(low, checkpoints[c].key)
    ensures |After(events, low)| < k
  {
    hide Spaced, Rank, Cut;
    var i := Cut(events, low);
    var j := i + k - 1;
    if j < |events| {
      BareWindow(events, checkpoints, k, i, j);
    }
  }

  /** Every boundary of a replay carries a checkpoint. */
  lemma {:induction false} RebuildCovers<S, E>(d: Domain<S, E>, s: S, es: seq<Entry<E>>, k: nat, n: nat)
    requires k > 0 && 0 < n <= |es| && Multiple(n, k)
    ensures exists c :: 0 <= c < |Rebuild(d, s, es, k)| && Rebuild(d, s, es, k)[c].key == es[n - 1].key
  {
    hide Fold, Multiple;
    var r := Rebuild(d, s, es, k);
    if n == |es| {
      assert r[|r| - 1].key == es[n - 1].key;
    } else {
      var p := es[..|es| - 1];
      RebuildCovers(d, s, p, k, n);
      var r' := Rebuild(d, s, p, k);
      var c :| 0 <= c < |r'| && r'[c].key == p[n - 1].key;
      assert r[c] == r'[c];
    }
  }

  /** A window inside the rebuilt stretch contains a boundary. */
  lemma RebuildSpaced<S, E>(d: Domain<S, E>, s: S, es: seq<Entry<E>>, k: nat, i: nat, j: nat)
    requires k > 0 && Sorted(es) && j == i + k - 1 && j < |es|
    ensures Covered(Rebuild(d, s, es, k), es[i].key, es[j].key)
  {
    hide Rebuild, Multiple;
    var n := Boundary(i + k, k);
    RebuildCovers(d, s, es, k, n);
    var r := Rebuild(d, s, es, k);
    var c :| 0 <= c < |r| && r[c].key == es[n - 1].key;
    assert i <= n - 1 <= j;
    assert i == n - 1 || Less(es[i].key, es[n - 1].key);
    assert j == n - 1 || Less(es[n - 1].key, es[j].key);
  }

  /**
   * Rebuilding after the last kept checkpoint restores the spacing, when the windows of the events
   * that end before it were covered by the kept checkpoints.
   */
  lemma ResumeSpaced<S, E>(
      d: Domain<S, E>, base: S, keep: seq<Entry<S>>, events: seq<Entry<E>>, k: nat)
    requires k > 0 && Sorted(keep) && Sorted(events)
    requires forall i, j | 0 <= i && j == i + k - 1 && j < Cut(events, Latest(base, keep).bound) ::
      Covered(keep, events[i].key, events[j].key)
    ensures Spaced(events, Resume(d, base, keep, events, k), k)
  {
    hide Rebuild;
    var latest := Latest(base, keep);
    var n, tail := Cut(events, latest.bound), After(events, latest.bound);
    var r := Rebuild(d, latest.state, tail, k);
    var m := Resume(d, base, keep, events, k);
    assert m == keep + r;
    forall i, j | 0 <= i && j == i + k - 1 && j < |events|
      ensures Covered(m, events[i].key, events[j].key)
    {
      if j < n {
        CoveredMore(keep, r, events[i].key, events[j].key);
      } else if i >= n {
        RebuildSpaced(d, latest.state, tail, k, i - n, j - n);
        assert tail[i - n] == events[i] && tail[j - n] == events[j];
        CoveredMore(keep, r, events[i].key, events[j].key);
      } else {
        assert !Beyond(latest.bound, events[i].key) && Beyond(latest.bound, events[j].key);
        assert m[|keep| - 1] == keep[|keep| - 1];
      }
    }
  }

  lemma CoveredMore<S>(a: seq<Entry<S>>, b: seq<Entry<S>>, low: Key, high: Key)
    ensures Covered(a, low, high) || Covered(b, low, high) ==> Covered(a + b, low, high)
  {
    if Covered(a, low, high) {
      var c :| 0 <= c < |a| && !Less(a[c].key, low) && !Less(high, a[c].key);
      assert (a + b)[c] == a[c];
    } else if Covered(b, low, high) {
      var c :| 0 <= c < |b| && !Less(b[c].key, low) && !Less(high, b[c].key);
      assert (a + b)[|a| + c] == b[c];
    }
  }

  lemma EventSpaced<S, E>(d: Domain<S, E>, h: History<S, E>, e: E)
    requires WellFormed(h) && Spaced(h.events, h.checkpoints, h.interval)
    ensures var h' := ApplyEvent(d, h, e); Spaced(h'.events, h'.checkpoints, h'.interval)
  {
    hide Rank, Cut, Insert, Resume, AppendCheckpoint, Spaced;
    var key := KeyOf(d, e);
    if !Has(h.events, key) {
      LatestMeansEnd(h.events, key, e);
      if From(h.events, key) == [] {
        AppendSpaced(d, h.base, h.checkpoints, h.events, key, e, h.interval);
      } else {
        CutSpaced(d, h.base, h.checkpoints, h.events, Insert(h.events, key, e), key, h.interval) by {
          InsertBelow(h.events, key, e);
        }
      }
    }
  }

  /** Cutting the checkpoints at `key` and rebuilding, when the events below `key` are the old ones. */
  lemma CutSpaced<S, E>(
      d: Domain<S, E>, base: S, checkpoints: seq<Entry<S>>, events: seq<Entry<E>>, events': seq<Entry<E>>,
      key: Key, k: nat)
    requires k > 0 && Sorted(checkpoints) && Sorted(events) && Sorted(events') && Spaced(events, checkpoints, k)
    requires Below(events', key) == Below(events, key)
    ensures Spaced(events', Resume(d, base, Below(checkpoints, key), events', k), k)
  {
    hide Resume;
    var keep := Below(checkpoints, key);
    var n := Cut(events', Latest(base, keep).bound);
    forall i, j | 0 <= i && j == i + k - 1 && j < n
      ensures Covered(keep, events'[i].key, events'[j].key)
    {
      KeptCover(checkpoints, events, events', key, Latest(base, keep).bound, k, i, j);
    }
    ResumeSpaced(d, base, keep, events', k);
  }

  /** A window that ends at or before a kept checkpoint keeps its cover. */
  lemma KeptCover<S, E>(
      checkpoints: seq<Entry<S>>, events: seq<Entry<E>>, events': seq<Entry<E>>,
      key: Key, bound: Bound, k: nat, i: nat, j: nat)
    requires k > 0 && Sorted(checkpoints) && Sorted(events) && Sorted(events') && Spaced(events, checkpoints, k)
    requires Below(events', key) == Below(events, key) && (bound.Excluded? ==> Less(bound.key, key))
    requires j == i + k - 1 && j < |events'| && !Beyond(bound, events'[j].key)
    ensures Covered(Below(checkpoints, key), events'[i].key, events'[j].key)
  {
    assert Less(events'[j].key, key);
    assert events'[j] == Below(events', key)[j] == events[j];
    assert events'[i] == Below(events', key)[i] == events[i];
    assert Covered(checkpoints, events[i].key, events[j].key);
    var c :|
      0 <= c < |checkpoints| && !Less(checkpoints[c].key, events[i].key) && !Less(events[j].key, checkpoints[c].key);
    assert Below(checkpoints, key)[c] == checkpoints[c];
  }

  lemma AppendSpaced<S, E>(
      d: Domain<S, E>, base: S, checkpoints: seq<Entry<S>>, events: seq<Entry<E>>, key: Key, e: E, k: nat)
    requires k > 0 && Sorted(checkpoints) && Sorted(events) && Spaced(events, checkpoints, k)
    requires From(events, key) == []
    ensures Spaced(Insert(events, key, e), AppendCheckpoint(d, base, checkpoints, Insert(events, key, e), key, k), k)
  {
    hide Fold, Rank, Multiple;
    InsertAtEnd(events, key, e);
    var events' := Insert(events, key, e);
    var m := AppendCheckpoint(d, base, checkpoints, events', key, k);
    var snapshot := Fold(d, Latest(base, checkpoints).state, After(events', Latest(base, checkpoints).bound));
    InsertKeepsCover(checkpoints, key, snapshot);
    forall i, j | 0 <= i && j == i + k - 1 && j < |events'|
      ensures Covered(m, events'[i].key, events'[j].key)
    {
      if j < |events| {
        assert events'[i] == events[i] && events'[j] == events[j];
        assert Covered(checkpoints, events[i].key, events[j].key);
      } else {
        LastWindow(d, base, checkpoints, events, Entry(key, e), k, i);
      }
    }
  }

  lemma InsertKeepsCover<S>(m: seq<Entry<S>>, key: Key, s: S)
    requires Sorted(m)
    ensures forall low, high :: Covered(m, low, high) ==> Covered(Insert(m, key, s), low, high)
    ensures forall low, high :: !Less(key, low) && !Less(high, key) ==> Covered(Insert(m, key, s), low, high)
  {
    var r := Insert(m, key, s);
    assert r[Rank(m, key)] == Entry(key, s);
    forall low, high | Covered(m, low, high)
      ensures Covered(r, low, high)
    {
      var c :| 0 <= c < |m| && !Less(m[c].key, low) && !Less(high, m[c].key);
      if c < Rank(m, key) {
        assert r[c] == m[c];
      } else if m[c].key == key {
        assert r[Rank(m, key)].key == key;
      } else {
        var b := Cut(m, Excluded(key));
        assert r[Rank(m, key) + 1 + (c - b)] == m[c];
      }
    }
  }

  /** The window that ends with a newly appended event. */
  lemma LastWindow<S, E>(
      d: Domain<S, E>, base: S, checkpoints: seq<Entry<S>>, events: seq<Entry<E>>, x: Entry<E>, k: nat, i: nat)
    requires k > 0 && Sorted(checkpoints) && Sorted(events) && Sorted(events + [x]) && Spaced(events, checkpoints, k)
    requires i + k == |events| + 1
    ensures Covered(AppendCheckpoint(d, base, checkpoints, events + [x], x.key, k), (events + [x])[i].key, x.key)
  {
    hide Fold, Rank;
    var events' := events + [x];
    var latest := Latest(base, checkpoints);
    var tail := After(events', latest.bound);
    assert events'[|events|] == x;
    assert i == |events| || Less(events'[i].key, x.key);
    if Multiple(|tail|, k) {
      InsertKeepsCover(checkpoints, x.key, Fold(d, latest.state, tail));
    } else {
      assert tail != [];
      assert Beyond(latest.bound, x.key);
      AfterSnoc(events, x, latest.bound);
      FewAfter(events, checkpoints, k, latest.bound) by {
        forall c | 0 <= c < |checkpoints|
          ensures !Beyond(latest.bound, checkpoints[c].key)
        {
          assert c == |checkpoints| - 1 || Less(checkpoints[c].key, checkpoints[|checkpoints| - 1].key);
        }
      }
      assert Multiple(0, k) && (|tail| == k ==> Multiple(|tail|, k));
      assert !Beyond(latest.bound, events'[i].key);
      var c := |checkpoints| - 1;
      assert checkpoints[c].key == latest.bound.key;
    }
  }

  lemma SnapshotSpaced<S, E>(d: Domain<S, E>, h: History<S, E>, s: S)
    requires WellFormed(h) && Spaced(h.events, h.checkpoints, h.interval)
    ensures var h' := ApplySnapshot(d, h, s); Spaced(h'.events, h'.checkpoints, h'.interval)
  {
    hide Rank, Resume, Spaced;
    if d.snapshotId(s) == h.id {
      var k, key := h.interval, SnapshotKey(d, h.id, s);
      var keep := Overridden(h.checkpoints, key, s);
      var n := Cut(h.events, Excluded(key));
      forall i, j | 0 <= i && j == i + k - 1 && j < n
        ensures Covered(keep, h.events[i].key, h.events[j].key)
      {
        if h.events[j].key == key {
          assert i == j || Less(h.events[i].key, h.events[j].key);
          assert keep[|keep| - 1].key == key;
        } else {
          CoverBelow(h.events, h.checkpoints, key, k, i, j);
          CoveredMore(Below(h.checkpoints, key), [Entry(key, s)], h.events[i].key, h.events[j].key);
        }
      }
      ResumeSpaced(d, h.base, keep, h.events, k);
    }
  }

  lemma CoverBelow<S, E>(events: seq<Entry<E>>, checkpoints: seq<Entry<S>>, key: Key, k: nat, i: nat, j: nat)
    requires k > 0 && Sorted(events) && Sorted(checkpoints) && Spaced(events, checkpoints, k)
    requires j == i + k - 1 && j < |events| && Less(events[j].key, key)
    ensures Covered(Below(checkpoints, key), events[i].key, events[j].key)
  {
  }

  lemma AdvanceSpaced<S, E>(h: History<S, E>, time: int)
    requires WellFormed(h) && Spaced(h.events, h.checkpoints, h.interval)
    ensures var h' := Advance(h, time); Spaced(h'.events, h'.checkpoints, h'.interval)
  {
  }

  /** In every state of every run of any mix of operations, safe or not, checkpoints are spaced. */
  lemma {:induction false} RunSpaced<S, E>(d: Domain<S, E>, h: History<S, E>, ops: seq<Op<S, E>>)
    requires WellFormed(h) && Spaced(h.events, h.checkpoints, h.interval)
    ensures var h' := RunHistory(d, h, ops); Spaced(h'.events, h'.checkpoints, h'.interval)
  {
    hide Spaced, ApplyEvent, ApplySnapshot, Advance, Sorted;
    if ops != [] {
      RunSpaced(d, h, ops[..|ops| - 1]);
      var h' := RunHistory(d, h, ops[..|ops| - 1]);
      match ops[|ops| - 1]
      case EventOp(e) => EventSpaced(d, h', e);
      case SnapshotOp(s) => SnapshotSpaced(d, h', s);
      case AdvanceOp(time) => AdvanceSpaced(h', time);
    }
  }

  /** Hence a query replays fewer than `interval` events, whatever happened before. */
  lemma BoundedReplay<S, E>(
      d: Domain<S, E>, s: S, now: int, horizon: int, k: nat, ops: seq<Op<S, E>>, time: int)
    requires k > 0
    ensures var h := RunHistory(d, New<S, E>(d, s, now, horizon, k), ops);
      h.interval == k && |QueryTail(h, time)| < k
  {
    hide Spaced, Sorted, Rank, Cut;
    var h0 := New<S, E>(d, s, now, horizon, k);
    FreshSpaced<S, E>(d, s, now, horizon, k);
    RunSpaced(d, h0, ops);
    RunKeepsInterval(d, h0, ops);
    var h := RunHistory(d, h0, ops);
    var key := QueryKey(h, time);
    var bound := Latest(h.base, UpTo(h.checkpoints, key)).bound;
    NoneBetween(h.base, h.checkpoints, key);
    FewBetween(h.events, h.checkpoints, k, bound, key);
  }

  lemma FreshSpaced<S, E>(d: Domain<S, E>, s: S, now: int, horizon: int, k: nat)
    requires k > 0
    ensures var h := New<S, E>(d, s, now, horizon, k);
      h.interval == k && WellFormed(h) && Spaced(h.events, h.checkpoints, k)
  {
  }

  lemma NoneBetween<S>(base: S, checkpoints: seq<Entry<S>>, key: Key)
    requires Sorted(checkpoints)
    ensures var bound := Latest(base, UpTo(checkpoints, key)).bound;
      forall c | 0 <= c < |checkpoints| :: !Beyond(bound, checkpoints[c].key) || !Less(checkpoints[c].key, key)
  {
  }

  lemma NoneBelow<S>(base: S, checkpoints: seq<Entry<S>>, key: Key)
    requires Sorted(checkpoints)
    ensures var bound := Latest(base, Below(checkpoints, key)).bound;
      forall c | 0 <= c < |checkpoints| :: !Beyond(bound, checkpoints[c].key) || !Less(checkpoints[c].key, key)
  {
  }
}
