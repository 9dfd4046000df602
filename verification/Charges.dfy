/** The shared counter against everything the histories hold, bases included. */
module Charges {
  import opened Domains
  import opened Histories
  import opened Timelines
  import opened Ledger
  import opened Workers
  import opened Sharding
  import opened SequentialRefinement
  import opened Conservation

  /** What one history takes up: its base, its events and its checkpoints. */
  function Owned<S, E>(d: Domain<S, E>, h: History<S, E>): nat {
    d.snapshotSize(h.base) + Footprint(d, h)
  }

  ghost function AllOwned<S, E>(d: Domain<S, E>, m: Shard<S, E>): nat {
    if m == map[] then 0 else
      var id :| id in m;
      Owned(d, m[id]) + AllOwned(d, m - {id})
  }

  lemma {:induction false} OwnedWithout<S, E>(d: Domain<S, E>, m: Shard<S, E>, id: nat)
    requires id in m
    ensures AllOwned(d, m) == Owned(d, m[id]) + AllOwned(d, m - {id})
    decreases |m|
  {
    hide Owned;
    var pick :| pick in m && AllOwned(d, m) == Owned(d, m[pick]) + AllOwned(d, m - {pick});
    if pick != id {
      OwnedWithout(d, m - {pick}, id);
      OwnedWithout(d, m - {id}, pick);
      assert m - {pick} - {id} == m - {id} - {pick};
    }
  }

  lemma OwnedUpdate<S, E>(d: Domain<S, E>, m: Shard<S, E>, id: nat, h: History<S, E>)
    ensures AllOwned(d, m[id := h]) == AllOwned(d, m) + Owned(d, h) - (if id in m then Owned(d, m[id]) else 0)
  {
    hide Owned;
    OwnedWithout(d, m[id := h], id);
    assert m[id := h] - {id} == m - {id};
    if id in m {
      OwnedWithout(d, m, id);
    } else {
      assert m - {id} == m;
    }
  }

  /** The message that opens a history publishes exactly what that history then takes up. */
  lemma OpeningChargesAll<S, E>(d: Domain<S, E>, horizon: int, m: Shard<S, E>, msg: Inbound<S, E>)
    requires SoundShard(m) && (msg.EventIn? || msg.SnapshotIn?) && TargetOf(d, msg) !in m
    ensures var id := TargetOf(d, msg);
      id in Handle(d, horizon, m, msg) &&
      Sum(Deltas(d, horizon, m, msg, [])) == Owned(d, Handle(d, horizon, m, msg)[id])
  {
    hide ApplyEvent, Footprint, OverwrittenBytes, SoundShard, WellFormed;
    match msg
    case EventIn(id, e, s) =>
      OpenHoldsNothing<S, E>(d, horizon, s);
      OpenOnEvents<S, E>(d, horizon, s);
      OnEventsOverwritesNothing(d, Open<S, E>(d, horizon, s), e);
      EventKeepsBase(d, Open<S, E>(d, horizon, s), e);
      SumTwo(BaseSize(d, s), OpDelta(d, Open<S, E>(d, horizon, s), EventOp(e)));
    case SnapshotIn(s) =>
      OpenHoldsNothing<S, E>(d, horizon, s);
      SumOne(BaseSize(d, s));
  }

  lemma EventKeepsBase<S, E>(d: Domain<S, E>, h: History<S, E>, e: E)
    requires WellFormed(h)
    ensures ApplyEvent(d, h, e).base == h.base
  {
  }

  lemma SnapshotKeepsBase<S, E>(d: Domain<S, E>, h: History<S, E>, s: S)
    requires WellFormed(h)
    ensures ApplySnapshot(d, h, s).base == h.base
  {
  }

  /** Any message but an advance publishes the growth of what the shard takes up, plus slack. */
  lemma MessageChargesGrowth<S, E>(d: Domain<S, E>, horizon: int, m: Shard<S, E>, msg: Inbound<S, E>)
    requires SoundShard(m) && !msg.AdvanceIn?
    ensures Sum(Deltas(d, horizon, m, msg, []))
         == AllOwned(d, Handle(d, horizon, m, msg)) - AllOwned(d, m) + Slack(d, horizon, m, msg)
  {
    hide ApplyEvent, ApplySnapshot, Footprint, OverwrittenBytes, WellFormed, AllOwned, Open;
    match msg
    case EventIn(id, e, s) =>
      OpenHoldsNothing<S, E>(d, horizon, s);
      OpenBase<S, E>(d, horizon, s);
      var h := if id in m then m[id] else Open(d, horizon, s);
      EventKeepsBase(d, h, e);
      OwnedUpdate(d, m, id, ApplyEvent(d, h, e));
      SumOne(OpDelta(d, h, EventOp(e)));
      SumTwo(BaseSize(d, s), OpDelta(d, h, EventOp(e)));
    case SnapshotIn(s) =>
      var id := d.snapshotId(s);
      OpenHoldsNothing<S, E>(d, horizon, s);
      OpenBase<S, E>(d, horizon, s);
      if id in m { SnapshotKeepsBase(d, m[id], s); }
      OwnedUpdate(d, m, id, Handle(d, horizon, m, msg)[id]);
      SumOne(Deltas(d, horizon, m, msg, [])[0]);
    case SnapshotAtIn(_, _) =>
  }

  lemma OpenBase<S, E>(d: Domain<S, E>, horizon: int, s: S)
    ensures Open<S, E>(d, horizon, s).base == d.setTime(s, 0)
  {
  }

  /** So in traffic without advances a worker's account is what its histories take up, plus slack. */
  lemma {:induction false} AccountIsOwned<S, E>(c: Config<S, E>, indices: seq<nat>)
    requires InRange(c, indices) && forall msg | msg in c.messages :: !msg.AdvanceIn?
    ensures Account(c, indices) == AllOwned(c.d, Local(c, indices)) + SlackBytes(c, indices)
  {
    hide Handle, Deltas, Held, Opened, Slack, SoundShard, AllOwned, InRange;
    if indices == [] {
      NothingOwned(c);
    } else {
      var n := |indices| - 1;
      RangeParts(c, indices);
      AccountIsOwned(c, indices[..n]);
      var m, msg := Local(c, indices[..n]), c.messages[indices[n]];
      assert msg in c.messages;
      MessageChargesGrowth(c.d, c.horizon, m, msg);
      AccountTake(c, indices[..n], indices[n], []);
      assert indices == indices[..n] + [indices[n]];
    }
  }

  lemma NothingOwned<S, E>(c: Config<S, E>)
    ensures InRange(c, []) && Account(c, []) == 0 && AllOwned(c.d, Local(c, [])) == 0 && SlackBytes(c, []) == 0
  {
  }

  // ---- the whole system ----

  /** The part of a shard that belongs to the first `n` workers. */
  function UpToWorker<S, E>(c: Config<S, E>, m: Shard<S, E>, n: nat): Shard<S, E>
    requires c.workers > 0
  {
    map id | id in m && OwnerOf(c, id) < n :: m[id]
  }

  /** Adding a part with other ids adds what it takes up. */
  lemma {:induction false} OwnedUnion<S, E>(d: Domain<S, E>, a: Shard<S, E>, b: Shard<S, E>)
    requires a.Keys !! b.Keys
    ensures AllOwned(d, a + b) == AllOwned(d, a) + AllOwned(d, b)
    decreases |b|
  {
    hide AllOwned, Owned;
    if b == map[] {
      assert a + b == a;
      NoneOwned(d, b);
    } else {
      var id :| id in b;
      var rest := b - {id};
      UnionWithout(a, b, id);
      OwnedUnion(d, a, rest);
      OwnedWithout(d, b, id);
      OwnedWithout(d, a + b, id);
    }
  }

  lemma UnionWithout<S, E>(a: Shard<S, E>, b: Shard<S, E>, id: nat)
    requires a.Keys !! b.Keys && id in b
    ensures (a + b) - {id} == a + (b - {id}) && id in a + b && (a + b)[id] == b[id]
    ensures a.Keys !! (b - {id}).Keys && |b - {id}| < |b|
  {
    assert (b - {id}).Keys == b.Keys - {id};
  }

  lemma NoneOwned<S, E>(d: Domain<S, E>, m: Shard<S, E>)
    requires m == map[]
    ensures AllOwned(d, m) == 0
  {
  }

  lemma UpToNext<S, E>(c: Config<S, E>, m: Shard<S, E>, n: nat)
    requires c.workers > 0
    ensures UpToWorker(c, m, n + 1) == UpToWorker(c, m, n) + Restrict(c, m, n)
    ensures UpToWorker(c, m, n).Keys !! Restrict(c, m, n).Keys
  {
    hide OwnerOf;
  }

  lemma UpToEnds<S, E>(c: Config<S, E>, m: Shard<S, E>)
    requires c.workers > 0
    ensures UpToWorker(c, m, 0) == map[] && UpToWorker(c, m, c.workers) == m
  {
  }

  /** The accounts of workers that have processed everything, in traffic that leaves no slack. */
  lemma {:induction false} AccountsAreOwned<S, E>(c: Config<S, E>, nodes: seq<Node<S, E>>)
    requires c.workers > 0 && forall msg | msg in c.messages :: msg.EventIn? || msg.SnapshotAtIn?
    requires forall w | 0 <= w < |nodes| :: nodes[w].taken == Indices(c, |c.messages|, w)
    ensures forall w | 0 <= w < |nodes| :: InRange(c, nodes[w].taken)
    ensures Accounts(c, nodes) == AllOwned(c.d, UpToWorker(c, Sequential(c, |c.messages|), |nodes|))
  {
    hide Account, AllOwned, Indices, UpToWorker, Restrict, Sequential, Local, OwnerOf, SlackBytes, SoundShard;
    var m := Sequential(c, |c.messages|);
    if nodes == [] {
      UpToEnds(c, m);
      NoneOwned(c.d, UpToWorker(c, m, 0));
    } else {
      var n := |nodes| - 1;
      AccountsAreOwned(c, nodes[..n]);
      LocalIsShare(c, |c.messages|, n);
      AccountIsOwned(c, nodes[n].taken);
      NoSlackWithoutSnapshots(c, nodes[n].taken);
      UpToNext(c, m, n);
      OwnedUnion(c.d, UpToWorker(c, m, n), Restrict(c, m, n));
    }
  }

  /**
   * The counter means what it says. For traffic of events and queries, when everything is sent and every
   * worker is idle with an empty queue, it is exactly the bytes of all bases, events and checkpoints in
   * the one map of histories that processes all messages in send order.
   */
  lemma CounterIsOwned<S(!new), E(!new)>(c: Config<S, E>, states: seq<System<S, E>>, i: nat)
    requires Execution(c, states) && i < |states| && Shaped(c, states[i])
    requires forall j | 0 <= j <= i :: Fits(states[j])
    requires forall msg | msg in c.messages :: msg.EventIn? || msg.SnapshotAtIn?
    requires states[i].next == |c.messages|
    requires forall w | 0 <= w < c.workers :: states[i].nodes[w].phase.Idle? && states[i].nodes[w].queue == []
    ensures states[i].counter == AllOwned(c.d, Sequential(c, |c.messages|))
  {
    hide Execution, Account, AllOwned, Indices, Sequential, Fits, Published, Accounts, UpToWorker, SoundShard;
    hide NodeInv;
    var nodes := states[i].nodes;
    ExecutionInv(c, states, i);
    forall w | 0 <= w < c.workers
      ensures nodes[w].taken == Indices(c, |c.messages|, w)
    {
      AllTaken(c, states[i], w);
    }
    CounterConserved(c, states, i);
    AccountsAreOwned(c, nodes);
    UpToEnds(c, Sequential(c, |c.messages|));
  }

  lemma AllTaken<S, E>(c: Config<S, E>, s: System<S, E>, w: nat)
    requires Inv(c, s) && w < c.workers && s.next == |c.messages| && s.nodes[w].queue == []
    ensures s.nodes[w].taken == Indices(c, |c.messages|, w)
  {
    hide Indices, Local, SoundShard;
    assert NodeInv(c, s, w);
    assert s.nodes[w].taken + [] == s.nodes[w].taken;
  }

  /**
   * An advance publishes the change in what a history takes up if and only if the base it promotes is as
   * large as the one it replaces: the base is charged once, when the history is opened.
   */
  lemma AdvanceChargeExact<S, E>(d: Domain<S, E>, h: History<S, E>, time: int)
    requires WellFormed(h)
    ensures OpDelta(d, h, AdvanceOp(time)) == Owned(d, Advance(h, time)) - Owned(d, h)
                                            + d.snapshotSize(h.base) - d.snapshotSize(Advance(h, time).base)
    ensures OpDelta(d, h, AdvanceOp(time)) == Owned(d, Advance(h, time)) - Owned(d, h)
       <==> d.snapshotSize(Advance(h, time).base) == d.snapshotSize(h.base)
  {
    hide Footprint, Advance;
  }
}
