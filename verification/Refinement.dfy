/** The checkpointed history refines the naive timeline, operation by operation and over whole runs. */
module Refinement {
  import opened Keys
  import opened OrderedMaps
  import opened MapFacts
  import opened Domains
  import opened Multiples
  import opened Checkpoints
  import opened Chains
  import opened Histories
  import opened Timelines

  ghost predicate Represents<S, E>(d: Domain<S, E>, h: History<S, E>, t: Timeline<S, E>) {
    && WellFormed(h) && Ordered(t)
    && h.id == t.id && h.base == t.base && h.events == t.events && h.now == t.now && h.horizon == t.horizon
    && h.checkpoints == Chain(d, t.base, t.auths, t.events, h.interval)
  }

  function Do<S, E>(d: Domain<S, E>, h: History<S, E>, op: Op<S, E>): (h': History<S, E>)
    requires WellFormed(h)
    ensures WellFormed(h')
  {
    match op
    case EventOp(e) => ApplyEvent(d, h, e)
    case SnapshotOp(s) => ApplySnapshot(d, h, s)
    case AdvanceOp(time) => Advance(h, time)
  }

  function RunHistory<S, E>(d: Domain<S, E>, h: History<S, E>, ops: seq<Op<S, E>>): (h': History<S, E>)
    requires WellFormed(h)
    ensures WellFormed(h')
  {
    if ops == [] then h else Do(d, RunHistory(d, h, ops[..|ops| - 1]), ops[|ops| - 1])
  }

  lemma RunSnoc<S, E>(d: Domain<S, E>, h: History<S, E>, ops: seq<Op<S, E>>, op: Op<S, E>)
    requires WellFormed(h)
    ensures RunHistory(d, h, ops + [op]) == Do(d, RunHistory(d, h, ops), op)
    ensures RunHistory(d, h, []) == h && RunHistory(d, h, [op]) == Do(d, h, op)
  {
    assert (ops + [op])[..|ops|] == ops;
  }

  /** The events an advance would drop without folding them into the new base. */
  function GapEvents<S, E>(h: History<S, E>, time: int): seq<Entry<E>>
    requires WellFormed(h)
  {
    var drop := DropKey(h, time);
    After(Below(h.events, drop), Latest(h.base, Below(h.checkpoints, drop)).bound)
  }

  /**
   * When the cache is up to its job: an advance leaves no gap events, and no checkpoint lies beyond
   * a new latest event (only an authoritative snapshot dated after every event can).
   */
  predicate Safe<S, E>(d: Domain<S, E>, h: History<S, E>, op: Op<S, E>)
    requires WellFormed(h)
  {
    match op
    case EventOp(e) =>
      var key := KeyOf(d, e);
      Has(h.events, key) || !IsLatest(EventsAfter(d, h.events, e), key) || After(h.checkpoints, Excluded(key)) == []
    case SnapshotOp(_) => true
    case AdvanceOp(time) => GapEvents(h, time) == []
  }

  predicate SafeRun<S, E>(d: Domain<S, E>, h: History<S, E>, ops: seq<Op<S, E>>)
    requires WellFormed(h)
  {
    ops == [] ||
    (SafeRun(d, h, ops[..|ops| - 1]) && Safe(d, RunHistory(d, h, ops[..|ops| - 1]), ops[|ops| - 1]))
  }

  /** At most one interval's worth of events makes at most one checkpoint. */
  lemma RebuildShort<S, E>(d: Domain<S, E>, s: S, es: seq<Entry<E>>, k: nat)
    requires 0 < |es| <= k
    ensures Multiple(|es|, k) <==> |es| == k
    ensures Rebuild(d, s, es, k) == if |es| == k then [Entry(es[|es| - 1].key, Fold(d, s, es))] else []
  {
  }

  /** A fresh event is the latest exactly when no stored event lies at or after it. */
  lemma LatestMeansEnd<V>(m: seq<Entry<V>>, key: Key, v: V)
    requires Sorted(m) && !Has(m, key)
    ensures IsLatest(Insert(m, key, v), key) <==> From(m, key) == []
    ensures From(m, key) == After(m, Excluded(key))
  {
  }

  /**
   * The append path computes what invalidating and replaying would: for a new latest event with no
   * checkpoint at or after it, both branches leave the same checkpoints.
   */
  lemma AppendIsReplay<S, E>(d: Domain<S, E>, h: History<S, E>, t: Timeline<S, E>, e: E)
    requires Represents(d, h, t) && From(h.events, KeyOf(d, e)) == [] && From(h.checkpoints, KeyOf(d, e)) == []
    ensures var events, key := Insert(h.events, KeyOf(d, e), e), KeyOf(d, e);
      AppendCheckpoint(d, h.base, h.checkpoints, events, key, h.interval)
      == Resume(d, h.base, Below(h.checkpoints, key), events, h.interval)
  {
    hide Chain, Rebuild, Fold, Rank, Cut, Multiple, Insert, From, Below, After, Sorted, Boundary;
    var k, key := h.interval, KeyOf(d, e);
    var events := Insert(h.events, key, e);
    var latest := Latest(h.base, h.checkpoints);
    InsertAtEnd(h.events, key, e);
    NothingFrom(h.checkpoints, key);
    var q := LatestInChain(d, t.base, t.auths, t.events, k);
    AfterSnoc(h.events, Entry(key, e), latest.bound);
    var tail := After(events, latest.bound);
    RebuildShort(d, latest.state, tail, k);
    var snapshot := Fold(d, latest.state, tail);
    InsertAtEnd(h.checkpoints, key, snapshot);
  }

  /** A latest event that no checkpoint lies at or after extends the chain. */
  lemma ChainAppend<S, E>(d: Domain<S, E>, h: History<S, E>, t: Timeline<S, E>, e: E)
    requires Represents(d, h, t) && From(h.events, KeyOf(d, e)) == [] && From(h.checkpoints, KeyOf(d, e)) == []
    ensures var events, key := Insert(h.events, KeyOf(d, e), e), KeyOf(d, e);
      AppendCheckpoint(d, h.base, h.checkpoints, events, key, h.interval)
      == Chain(d, t.base, t.auths, events, h.interval)
  {
    hide Chain, Rebuild, Fold, Rank, Cut, Multiple, AppendCheckpoint, From, After, Insert, Sorted;
    var key := KeyOf(d, e);
    AppendIsReplay(d, h, t, e);
    InsertAtEnd(h.events, key, e);
    NothingFrom(h.checkpoints, key);
    ChainKeys(d, t.base, t.auths, t.events, h.interval);
    ChainResume(d, t.base, t.auths, t.events, Insert(h.events, key, e), h.interval);
  }

  /** A latest event that lands exactly on the last authoritative snapshot changes no checkpoint. */
  lemma ChainAbsorbs<S, E>(d: Domain<S, E>, h: History<S, E>, t: Timeline<S, E>, e: E)
    requires Represents(d, h, t) && From(h.events, KeyOf(d, e)) == []
    requires From(h.checkpoints, KeyOf(d, e)) != [] && After(h.checkpoints, Excluded(KeyOf(d, e))) == []
    ensures var events, key := Insert(h.events, KeyOf(d, e), e), KeyOf(d, e);
      && AppendCheckpoint(d, h.base, h.checkpoints, events, key, h.interval) == h.checkpoints
      && Chain(d, t.base, t.auths, events, h.interval) == h.checkpoints
  {
    hide Chain, Rebuild, Fold;
    var key := KeyOf(d, e);
    var events := Insert(h.events, key, e);
    InsertAtEnd(h.events, key, e);
    var last := LastAt(h.checkpoints, key);
    LastIsAuthoritative(d, h, t, key);
    AppendAtCheckpoint(d, h.base, h.checkpoints, events, key, h.interval);
    ChainIgnores(d, t.base, t.auths, t.events, Entry(key, e), h.interval);
  }

  lemma LastIsAuthoritative<S, E>(d: Domain<S, E>, h: History<S, E>, t: Timeline<S, E>, key: Key)
    requires Represents(d, h, t) && From(h.events, key) == []
    requires h.checkpoints != [] && h.checkpoints[|h.checkpoints| - 1].key == key
    ensures t.auths != [] && t.auths[|t.auths| - 1].key == key
  {
    hide Chain, Rebuild, Fold;
    ChainKeys(d, t.base, t.auths, t.events, h.interval);
    var c := h.checkpoints;
    var last := c[|c| - 1];
    assert last in c;
    NothingFrom(h.events, key);
    assert !Has(h.events, key);
    var i :| 0 <= i < |t.auths| && t.auths[i] == last;
    var a := t.auths[|t.auths| - 1];
    assert a in c;
    var j :| 0 <= j < |c| && c[j] == a;
    assert i == |t.auths| - 1 || Less(last.key, a.key);
    assert j == |c| - 1 || Less(a.key, last.key);
  }

  lemma AppendAtCheckpoint<S, E>(
      d: Domain<S, E>, base: S, checkpoints: seq<Entry<S>>, events: seq<Entry<E>>, key: Key, k: nat)
    requires k > 0 && Sorted(checkpoints) && Sorted(events) && checkpoints != []
    requires var last := checkpoints[|checkpoints| - 1];
      last.key == key && Insert(checkpoints, key, last.value) == checkpoints
    requires events != [] && events[|events| - 1].key == key
    ensures AppendCheckpoint(d, base, checkpoints, events, key, k) == checkpoints
  {
  }

  lemma ChainIgnores<S, E>(
      d: Domain<S, E>, base: S, auths: seq<Entry<S>>, es: seq<Entry<E>>, x: Entry<E>, k: nat)
    requires k > 0 && Sorted(es) && Sorted(es + [x]) && auths != [] && auths[|auths| - 1].key == x.key
    ensures Chain(d, base, auths, es + [x], k) == Chain(d, base, auths, es, k)
  {
    hide Rebuild, Fold;
    var m, key := es + [x], x.key;
    assert m[|es|] == x;
    assert forall i | 0 <= i < |es| :: m[i] == es[i] && Less(m[i].key, m[|es|].key);
    RankIs(m, key, |es|);
    RankIs(es, key, |es|);
    CutIs(m, Excluded(key), |m|);
    CutIs(es, Excluded(key), |es|);
    assert Below(m, key) == es == Below(es, key);
    assert After(m, Excluded(key)) == [] == After(es, Excluded(key));
  }

  /** A late event cuts the chain at its key and rebuilds what follows. */
  lemma ChainLate<S, E>(d: Domain<S, E>, h: History<S, E>, t: Timeline<S, E>, e: E)
    requires Represents(d, h, t) && !Has(h.events, KeyOf(d, e))
    ensures var events, key := Insert(h.events, KeyOf(d, e), e), KeyOf(d, e);
      Resume(d, h.base, Below(h.checkpoints, key), events, h.interval)
      == Chain(d, t.base, Below(t.auths, key), events, h.interval)
  {
    hide Chain, Rebuild, Fold, Rank, Cut, From, After, Insert, Has, Sorted;
    var key := KeyOf(d, e);
    ChainBelow(d, t.base, t.auths, t.events, h.interval, key);
    InsertTail(t.events, key, e);
    BelowLess(t.auths, key);
    ChainResume(d, t.base, Below(t.auths, key), Below(t.events, key), Insert(h.events, key, e), h.interval);
  }

  lemma EventRefines<S, E>(d: Domain<S, E>, h: History<S, E>, t: Timeline<S, E>, e: E)
    requires Represents(d, h, t) && Safe(d, h, EventOp(e))
    ensures Represents(d, ApplyEvent(d, h, e), Record(d, t, e))
  {
    hide Chain, Rank, Cut, Insert, Resume, AppendCheckpoint;
    var key := KeyOf(d, e);
    if !Has(h.events, key) {
      LatestMeansEnd(h.events, key, e);
      if From(h.events, key) != [] {
        ChainLate(d, h, t, e);
      } else if From(h.checkpoints, key) == [] {
        ChainAppend(d, h, t, e);
      } else {
        ChainAbsorbs(d, h, t, e);
      }
    }
  }

  lemma SnapshotRefines<S, E>(d: Domain<S, E>, h: History<S, E>, t: Timeline<S, E>, s: S)
    requires Represents(d, h, t)
    ensures Represents(d, ApplySnapshot(d, h, s), Override(d, t, s))
  {
    hide Rank, Cut, Rebuild, Has, Fold;
    if d.snapshotId(s) == h.id {
      var key := SnapshotKey(d, h.id, s);
      ChainBelow(d, t.base, t.auths, t.events, h.interval, key);
      ChainSettled(d, t.base, Overridden(t.auths, key, s), t.events, h.interval);
      assert Overridden(t.auths, key, s)[..|Below(t.auths, key)|] == Below(t.auths, key);
    }
  }

  lemma AdvanceRefines<S, E>(d: Domain<S, E>, h: History<S, E>, t: Timeline<S, E>, time: int)
    requires Represents(d, h, t) && Safe(d, h, AdvanceOp(time))
    ensures Represents(d, Advance(h, time), Prune(d, t, time))
  {
    hide Chain, StateBefore, Rank, Cut, Latest, Below, From, After;
    var drop := DropKey(h, time);
    ChainAdvance(d, t.base, t.auths, t.events, h.interval, drop);
    PromotedBase(d, t.base, t.auths, t.events, h.interval, drop);
    StateBeforeIs(d, t, drop);
  }

  lemma StateBeforeIs<S, E>(d: Domain<S, E>, t: Timeline<S, E>, key: Key)
    requires Ordered(t)
    ensures var origin := Latest(t.base, Below(t.auths, key));
      StateBefore(d, t, key) == Fold(d, origin.state, After(Below(t.events, key), origin.bound))
  {
  }

  /** The promoted checkpoint holds everything that is dropped with it. */
  lemma PromotedBase<S, E>(
      d: Domain<S, E>, base: S, auths: seq<Entry<S>>, es: seq<Entry<E>>, k: nat, drop: Key)
    requires k > 0 && Sorted(es) && Sorted(auths) && Sorted(Chain(d, base, auths, es, k))
    requires var dropped := Below(Chain(d, base, auths, es, k), drop);
      After(Below(es, drop), Latest(base, dropped).bound) == []
    ensures var origin := Latest(base, Below(auths, drop));
      Latest(base, Below(Chain(d, base, auths, es, k), drop)).state
      == Fold(d, origin.state, After(Below(es, drop), origin.bound))
  {
    hide *;
    ChainBelow(d, base, auths, es, k, drop);
    var q := LatestInChain(d, base, Below(auths, drop), Below(es, drop), k);
    var tail := After(Below(es, drop), Latest(base, Below(auths, drop)).bound);
    assert tail[..q] == tail;
  }

  lemma DoRefines<S, E>(d: Domain<S, E>, h: History<S, E>, t: Timeline<S, E>, op: Op<S, E>)
    requires Represents(d, h, t) && Safe(d, h, op)
    ensures Represents(d, Do(d, h, op), Perform(d, t, op))
  {
    hide Represents, Safe, ApplyEvent, ApplySnapshot, Advance, Record, Override, Prune;
    match op
    case EventOp(e) => EventRefines(d, h, t, e);
    case SnapshotOp(s) => SnapshotRefines(d, h, t, s);
    case AdvanceOp(time) => AdvanceRefines(d, h, t, time);
  }

  /** Over every safe run of any mix of operations, the cache represents the naive timeline. */
  lemma {:induction false} RunRefines<S, E>(d: Domain<S, E>, h: History<S, E>, t: Timeline<S, E>, ops: seq<Op<S, E>>)
    requires Represents(d, h, t) && SafeRun(d, h, ops)
    ensures Represents(d, RunHistory(d, h, ops), Run(d, t, ops))
  {
    hide Safe, Do, Perform, Chain, Sorted;
    if ops != [] {
      var before := ops[..|ops| - 1];
      RunRefines(d, h, t, before);
      DoRefines(d, RunHistory(d, h, before), Run(d, t, before), ops[|ops| - 1]);
    }
  }

  lemma {:induction false} RunKeepsInterval<S, E>(d: Domain<S, E>, h: History<S, E>, ops: seq<Op<S, E>>)
    requires WellFormed(h)
    ensures RunHistory(d, h, ops).interval == h.interval && RunHistory(d, h, ops).id == h.id
  {
    hide EventsAfter, CheckpointsAfter, Resume, Sorted;
    if ops != [] {
      RunKeepsInterval(d, h, ops[..|ops| - 1]);
    }
  }
}
