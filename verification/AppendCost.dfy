/** The replay work of arrival, in order and late. */
module AppendCost {
  import opened Keys
  import opened OrderedMaps
  import opened MapFacts
  import opened Domains
  import opened Multiples
  import opened Checkpoints
  import opened Chains
  import opened Histories
  import opened Timelines
  import opened Refinement
  import opened EventRuns
  import opened Spacing

  /** `apply_to` calls made while a run's events are applied. */
  function RunCost<S, E>(d: Domain<S, E>, h: History<S, E>, ops: seq<Op<S, E>>): nat
    requires WellFormed(h)
  {
    if ops == [] then 0 else
      var before, last := ops[..|ops| - 1], ops[|ops| - 1];
      var h' := RunHistory(d, h, before);
      RunCost(d, h, before)
        + if last.EventOp? then ApplyCost(d, h'.base, h'.checkpoints, h'.events, last.event, h'.interval) else 0
  }

  ghost predicate Increasing<S, E>(d: Domain<S, E>, ops: seq<Op<S, E>>) {
    OnlyEvents(ops) && forall i, j | 0 <= i < j < |ops| :: Less(KeyOf(d, ops[i].event), KeyOf(d, ops[j].event))
  }

  /** One append: nothing to replay until an interval is complete, then exactly one interval. */
  lemma AppendOnce<S, E>(d: Domain<S, E>, h: History<S, E>, t: Timeline<S, E>, e: E)
    requires Represents(d, h, t) && t.auths == [] && From(h.events, KeyOf(d, e)) == []
    ensures ApplyCost(d, h.base, h.checkpoints, h.events, e, h.interval)
         == if Multiple(|h.events| + 1, h.interval) then h.interval else 0
    ensures ApplyEvent(d, h, e).events == h.events + [Entry(KeyOf(d, e), e)]
  {
    hide Chain, Rebuild, Fold, Rank, Cut, Multiple, CheckpointsAfter, Insert, Has, IsLatest, Sorted, After, From;
    var k, key := h.interval, KeyOf(d, e);
    var latest := Latest(h.base, h.checkpoints);
    InsertAtEnd(h.events, key, e);
    AfterOfNothing(h.events, key);
    LatestMeansEnd(h.events, key, e);
    EventIsSafe(d, h, t, e);
    NothingFrom(h.checkpoints, key);
    var q := LatestInChain(d, t.base, t.auths, t.events, k);
    AfterAll(h.events);
    AfterSnoc(h.events, Entry(key, e), latest.bound);
    RebuildShort(d, latest.state, After(Insert(h.events, key, e), latest.bound), k);
    BoundarySucc(|h.events|, k);
  }

  lemma {:induction false} AppendRun<S, E>(
      d: Domain<S, E>, h: History<S, E>, t: Timeline<S, E>, ops: seq<Op<S, E>>)
    requires Represents(d, h, t) && t.auths == [] && h.events == [] && Increasing(d, ops)
    ensures var h' := RunHistory(d, h, ops);
      && |h'.events| == |ops|
      && (ops != [] ==> h'.events[|ops| - 1].key == KeyOf(d, ops[|ops| - 1].event))
      && RunCost(d, h, ops) == Boundary(|ops|, h.interval)
  {
    hide Chain, Sorted, Multiple, ApplyCost, ApplyEvent, SafeRun, Boundary, Run;
    if ops != [] {
      var before, last := ops[..|ops| - 1], ops[|ops| - 1];
      assert last in ops;
      EventRun(d, h, t, before);
      AppendRun(d, h, t, before);
      RunKeepsInterval(d, h, before);
      var h', t' := RunHistory(d, h, before), Run(d, t, before);
      EndsBelow(h'.events, KeyOf(d, last.event));
      AppendOnce(d, h', t', last.event);
      BoundarySucc(|before|, h.interval);
      BoundarySucc(|ops|, h.interval);
    }
  }

  /**
   * Amortised append cost: n events arriving in strictly increasing key order on a fresh history
   * cause exactly k * floor(n / k) applications, at most one per event.
   */
  lemma AmortisedAppend<S, E>(d: Domain<S, E>, s: S, now: int, horizon: int, k: nat, ops: seq<Op<S, E>>)
    requires k > 0 && Increasing(d, ops)
    ensures RunCost(d, New<S, E>(d, s, now, horizon, k), ops) == k * (|ops| / k)
  {
    hide New, Start, Represents, Increasing, RunCost;
    NewRepresents<S, E>(d, s, now, horizon, k);
    NewFields<S, E>(d, s, now, horizon, k);
    AppendRun(d, New<S, E>(d, s, now, horizon, k), Start<S, E>(d, s, now, horizon), ops);
    MultipleIsMod(|ops|, k);
  }

  /**
   * In every reachable state, safe or not, one event costs at most one application for each stored event
   * at or after it and one interval more.
   */
  lemma EventCostBounded<S, E>(d: Domain<S, E>, h: History<S, E>, e: E)
    requires WellFormed(h) && Spaced(h.events, h.checkpoints, h.interval)
    ensures ApplyCost(d, h.base, h.checkpoints, h.events, e, h.interval)
         <= |From(h.events, KeyOf(d, e))| + h.interval
  {
    hide Spaced, Insert, Rank, Cut, Has, Sorted, From, Below, After, IsLatest, Multiple;
    var key, k := KeyOf(d, e), h.interval;
    if !Has(h.events, key) {
      var events := Insert(h.events, key, e);
      LatestMeansEnd(h.events, key, e);
      if From(h.events, key) == [] {
        var bound := Latest(h.base, h.checkpoints).bound;
        InsertAtEnd(h.events, key, e);
        NoneBeyondLast(h.base, h.checkpoints);
        FewAfter(h.events, h.checkpoints, k, bound);
        AfterOneMore(h.events, Entry(key, e), bound);
      } else {
        var bound := Latest(h.base, Below(h.checkpoints, key)).bound;
        NoneBelow(h.base, h.checkpoints, key);
        FewBetween(h.events, h.checkpoints, k, bound, key);
        AfterInserted(h.base, h.checkpoints, h.events, key, e);
      }
    }
  }

  lemma NoneBeyondLast<S>(base: S, m: seq<Entry<S>>)
    requires Sorted(m)
    ensures forall c | 0 <= c < |m| :: !Beyond(Latest(base, m).bound, m[c].key)
  {
  }

  lemma AfterOneMore<V>(m: seq<Entry<V>>, x: Entry<V>, b: Bound)
    requires Sorted(m + [x]) && Sorted(m)
    ensures |After(m + [x], b)| <= |After(m, b)| + 1
  {
    assert (m + [x])[|m|] == x;
    assert forall i | 0 <= i < |m| :: (m + [x])[i] == m[i];
    var c := Cut(m, b);
    assert c > 0 ==> !Beyond(b, (m + [x])[c - 1].key);
    assert Cut(m + [x], b) >= c;
  }

  /** What a late event has to replay: the stored events since the last kept checkpoint, and itself. */
  lemma AfterInserted<S, V>(base: S, checkpoints: seq<Entry<S>>, m: seq<Entry<V>>, key: Key, v: V)
    requires Sorted(checkpoints) && Sorted(m) && !Has(m, key)
    ensures var b := Latest(base, Below(checkpoints, key)).bound;
      |After(Insert(m, key, v), b)| == |Between(m, b, key)| + |From(m, key)| + 1
  {
    hide Rank, Cut, Has, Insert, Below, After, From;
    var b := Latest(base, Below(checkpoints, key)).bound;
    BoundBelow(base, checkpoints, key);
    SplitAfter(Insert(m, key, v), b, key);
    InsertBelow(m, key, v);
    FromInserted(m, key, v);
  }

  lemma FromInserted<V>(m: seq<Entry<V>>, key: Key, v: V)
    requires Sorted(m) && !Has(m, key)
    ensures From(Insert(m, key, v), key) == [Entry(key, v)] + From(m, key)
  {
    RankIs(Insert(m, key, v), key, Rank(m, key));
  }

  /** So in every run of any mix of operations. */
  lemma RunCostBounded<S, E>(d: Domain<S, E>, s: S, now: int, horizon: int, k: nat, ops: seq<Op<S, E>>, e: E)
    requires k > 0
    ensures var h := RunHistory(d, New<S, E>(d, s, now, horizon, k), ops);
      ApplyCost(d, h.base, h.checkpoints, h.events, e, k) <= |From(h.events, KeyOf(d, e))| + k
  {
    hide New, RunHistory, Spaced, ApplyCost, From, Sorted;
    FreshSpaced<S, E>(d, s, now, horizon, k);
    RunSpaced(d, New<S, E>(d, s, now, horizon, k), ops);
    RunKeepsInterval(d, New<S, E>(d, s, now, horizon, k), ops);
    EventCostBounded(d, RunHistory(d, New<S, E>(d, s, now, horizon, k), ops), e);
  }
}
