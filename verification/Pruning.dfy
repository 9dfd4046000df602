/** What `advance` does to the answers, and how advances compose. */
module Pruning {
  import opened Keys
  import opened OrderedMaps
  import opened MapFacts
  import opened Domains
  import opened Checkpoints
  import opened Histories
  import opened Refinement
  import opened Spacing
  import opened Timelines
  import opened Ledger

  /** A checkpoint that survives the advance and serves queries at `key`. */
  predicate Retained<S, E>(h: History<S, E>, time: int, key: Key)
    requires WellFormed(h)
  {
    UpTo(From(h.checkpoints, DropKey(h, time)), key) != []
  }

  /** An advance keeps exactly what is dated at or after the drop time. */
  lemma AdvanceKeepsRecent<S, E>(h: History<S, E>, time: int)
    requires WellFormed(h)
    ensures forall x :: x in Advance(h, time).events <==> x in h.events && x.key.time >= h.now + time - h.horizon
    ensures forall x ::
      x in Advance(h, time).checkpoints <==> x in h.checkpoints && x.key.time >= h.now + time - h.horizon
  {
  }

  /** A query at or after the drop time that a retained checkpoint serves keeps its answer. */
  lemma AdvanceKeepsServed<S, E>(d: Domain<S, E>, h: History<S, E>, time: int, at: int)
    requires WellFormed(h) && !Less(QueryKey(h, at), DropKey(h, time))
    requires Retained(h, time, QueryKey(h, at)) && SnapshotAt(d, h, at).Found?
    ensures SnapshotAt(d, Advance(h, time), at) == SnapshotAt(d, h, at)
    ensures QueryTail(Advance(h, time), at) == QueryTail(h, at)
  {
    hide Rank, Cut, Replay, Has, Sorted, Below, From, After, UpTo;
    var key, drop := QueryKey(h, at), DropKey(h, time);
    var h' := Advance(h, time);
    UpToFrom(h.checkpoints, drop, key);
    var kept := UpTo(h'.checkpoints, key);
    var start := Latest(h.base, UpTo(h.checkpoints, key));
    assert start == Latest(h'.base, kept);
    FromAtLeast(h.checkpoints, drop, key);
    FromThenBelow(h.events, drop, key);
    FromThenAfter(Below(h.events, key), drop, start.bound.key);
  }

  /**
   * Any other query at or after the drop time starts from the new base; its replay is the old one
   * with exactly the gap events left out, and there are fewer than `interval` of those.
   */
  lemma AdvanceOmitsGap<S, E>(d: Domain<S, E>, h: History<S, E>, time: int, at: int)
    requires WellFormed(h) && !Less(QueryKey(h, at), DropKey(h, time))
    requires !Retained(h, time, QueryKey(h, at))
    ensures var h' := Advance(h, time);
      && QueryTail(h, at) == GapEvents(h, time) + QueryTail(h', at)
      && SnapshotAt(d, h, at) == Found(d.setTime(Replay(d, h'.base, GapEvents(h, time) + QueryTail(h', at)), at))
      && SnapshotAt(d, h', at) == Found(d.setTime(Replay(d, h'.base, QueryTail(h', at)), at))
  {
    hide Rank, Cut, Replay, Has, Sorted, Below, From, After, UpTo;
    var key, drop := QueryKey(h, at), DropKey(h, time);
    var h' := Advance(h, time);
    UpToFrom(h.checkpoints, drop, key);
    NotHasUpTo(h'.checkpoints, key);
    assert UpTo(h.checkpoints, key) == Below(h.checkpoints, drop);
    var start := Latest(h.base, Below(h.checkpoints, drop));
    BoundBelow(h.base, h.checkpoints, drop);
    FromThenBelow(h.events, drop, key);
    BelowBelow(h.events, drop, key);
    SplitAfter(Below(h.events, key), start.bound, drop);
    AfterAll(Below(h'.events, key));
  }

  /** In every reachable state an advance loses fewer than `interval` gap events, and none at interval 1. */
  lemma GapIsShort<S, E>(
      d: Domain<S, E>, s: S, now: int, horizon: int, k: nat, ops: seq<Op<S, E>>, time: int)
    requires k > 0
    ensures |GapEvents(RunHistory(d, New<S, E>(d, s, now, horizon, k), ops), time)| < k
  {
    hide Spaced, Sorted, Rank, Cut;
    var h0 := New<S, E>(d, s, now, horizon, k);
    FreshSpaced<S, E>(d, s, now, horizon, k);
    RunSpaced(d, h0, ops);
    RunKeepsInterval(d, h0, ops);
    var h := RunHistory(d, h0, ops);
    var drop := DropKey(h, time);
    NoneBelow(h.base, h.checkpoints, drop);
    FewBetween(h.events, h.checkpoints, k, Latest(h.base, Below(h.checkpoints, drop)).bound, drop);
  }

  /**
   * Two advances in a row are one advance by the sum, in bytes and in everything stored. The root of
   * the event map tells them apart exactly when the first advance empties a map that held events: the
   * second then finds nothing to split and leaves a map without a root.
   */
  lemma AdvancesCompose<S, E>(d: Domain<S, E>, h: History<S, E>, a: int, b: int)
    requires WellFormed(h) && b >= 0
    ensures Advance(Advance(h, a), b) == Advance(h, a + b).(rooted := From(h.events, DropKey(h, a)) != [])
    ensures Advance(Advance(h, a), b) == Advance(h, a + b)
       <==> (h.events != [] ==> From(h.events, DropKey(h, a)) != [])
    ensures OpDelta(d, h, AdvanceOp(a)) + OpDelta(d, Advance(h, a), AdvanceOp(b)) == OpDelta(d, h, AdvanceOp(a + b))
  {
    hide Rank, Bytes, Below, From, Sorted, Latest;
    var low, high := DropKey(h, a), DropKey(h, a + b);
    FromFrom(h.events, low, high);
    FromFrom(h.checkpoints, low, high);
    FromThenBelow(h.checkpoints, low, high);
    LatestOfLater(h.base, h.checkpoints, low, high);
  }

  lemma LatestOfLater<S>(base: S, m: seq<Entry<S>>, low: Key, high: Key)
    requires Sorted(m) && !Less(high, low)
    ensures Latest(Latest(base, Below(m, low)).state, Below(From(m, low), high)).state
         == Latest(base, Below(m, high)).state
  {
  }
}
