/** What a query answers, in terms of the naive timeline. */
module Queries {
  import opened Keys
  import opened OrderedMaps
  import opened MapFacts
  import opened Domains
  import opened Checkpoints
  import opened Chains
  import opened Histories
  import opened Timelines
  import opened Refinement

  /**
   * A query answers the naive fold, except that it panics exactly when a checkpoint is keyed at the
   * query bound itself while the event map has a root: while events are stored, or after an advance
   * that took out the last of them.
   */
  lemma QueryRefines<S(!new), E(!new)>(d: Domain<S, E>, h: History<S, E>, t: Timeline<S, E>, time: int)
    requires Represents(d, h, t) && Lawful(d)
    ensures SnapshotAt(d, h, time)
         == if Has(h.checkpoints, QueryKey(h, time)) && h.rooted then RangePanic else Found(StateAt(d, t, time))
  {
    hide Rank, Chain, Lawful, Replay;
    var key := QueryKey(h, time);
    if Has(h.checkpoints, key) {
      if h.events == [] {
        ChainOfNothing(d, t.base, t.auths, h.interval);
      }
    } else {
      ChainKeys(d, t.base, t.auths, t.events, h.interval);
      NoneAt(h.checkpoints, t.auths, key);
      UpToIsBelow(h.checkpoints, key);
      UpToIsBelow(t.auths, key);
      ChainAnswers(d, t.base, t.auths, t.events, h.interval, key, time);
    }
  }

  /** Without events the checkpoints are the authoritative snapshots. */
  lemma {:induction false} ChainOfNothing<S, E>(d: Domain<S, E>, base: S, auths: seq<Entry<S>>, k: nat)
    requires k > 0
    ensures Chain<S, E>(d, base, auths, [], k) == auths
    decreases |auths|
  {
    hide *;
    if auths == [] {
      NoChain<S, E>(d, base, k);
    } else {
      var n := |auths| - 1;
      ChainSettled<S, E>(d, base, auths, [], k);
      ChainOfNothing<S, E>(d, base, auths[..n], k);
      NoChain<S, E>(d, auths[n].value, k);
      NoCut<E>(auths[n].key);
      var a: seq<Entry<S>> := [auths[n]];
      assert auths == auths[..n] + (a + []);
    }
  }

  lemma NoChain<S, E>(d: Domain<S, E>, base: S, k: nat)
    requires k > 0
    ensures Chain<S, E>(d, base, [], [], k) == [] == Rebuild<S, E>(d, base, [], k)
  {
    ChainNoAuths<S, E>(d, base, [], k);
  }

  lemma NoCut<V>(key: Key)
    ensures Below<V>([], key) == [] == After<V>([], Excluded(key))
  {
  }

  /**
   * The documentation promises the events with a time below the query time. The bound also lets in
   * events at the query time itself whose id is below the snapshot id: the promise holds exactly
   * when no such event is stored.
   */
  lemma QueryBoundExact<V>(events: seq<Entry<V>>, time: int, id: nat)
    requires Sorted(events)
    ensures Below(events, Key(time, id)) == Below(events, Key(time, 0))
       <==> forall x | x in events :: !(x.key.time == time && x.key.id < id)
  {
    var n, n' := Rank(events, Key(time, 0)), Rank(events, Key(time, id));
    if n < n' {
      assert Less(events[n].key, Key(time, id)) && !Less(events[n].key, Key(time, 0));
      assert events[n] in events;
    } else {
      forall x | x in events
        ensures !(x.key.time == time && x.key.id < id)
      {
        var i :| 0 <= i < |events| && events[i] == x;
        assert Less(x.key, Key(time, id)) <==> i < n';
      }
      assert n' < |events| ==> !Less(events[n'].key, Key(time, id));
    }
  }
}
