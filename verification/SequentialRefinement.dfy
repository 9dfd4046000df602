/** Sharding refines sequential execution. */
module SequentialRefinement {
  import opened Domains
  import opened Workers
  import opened Sharding

  lemma InitialInv<S, E>(c: Config<S, E>)
    requires c.workers > 0
    ensures Inv(c, Initial(c))
  {
  }

  /** One delivery extends exactly the destination's queue. */
  lemma DeliveredBySend<S, E>(c: Config<S, E>, s: System<S, E>, w: nat)
    requires Inv(c, s) && Enabled(c, s, Send) && w < c.workers
    ensures Shaped(c, Next(c, s, Send))
    ensures Delivered(c, Next(c, s, Send), w)
         == Delivered(c, s, w) + if w == Destination(c, s) then [s.next] else []
  {
    hide NodeInv, OwnerOf, SoundShard;
    NextShaped(c, s, Send);
  }

  lemma SendKeeps<S, E>(c: Config<S, E>, s: System<S, E>)
    requires Inv(c, s) && Enabled(c, s, Send)
    ensures Inv(c, Next(c, s, Send))
  {
    hide Delivered, OwnerOf, Indices, Local, SoundShard, InRange, RepliesSound;
    NextShaped(c, s, Send);
    var s' := Next(c, s, Send);
    forall w | 0 <= w < c.workers
      ensures NodeInv(c, s', w)
    {
      assert NodeInv(c, s, w);
      DeliveredBySend(c, s, w);
      var n, n' := s.nodes[w], s'.nodes[w];
      if w == Destination(c, s) {
        assert n' == n.(queue := n.queue + [s.next]);
        assert n.taken + (n.queue + [s.next]) == (n.taken + n.queue) + [s.next];
      } else {
        assert n' == n;
        assert Delivered(c, s, w) + [] == Delivered(c, s, w);
      }
    }
  }

  /** The invariant of a worker that changes while the sender and the others stand still. */
  lemma OtherNodesKeep<S, E>(c: Config<S, E>, s: System<S, E>, s': System<S, E>, w: nat)
    requires Inv(c, s) && Shaped(c, s') && w < c.workers
    requires s'.next == s.next && s'.sub == s.sub && s'.nodes == s.nodes[w := s'.nodes[w]]
    requires NodeInv(c, s', w)
    ensures Inv(c, s')
  {
    hide SoundShard, InRange, NodeSound, Delivered;
    forall v | 0 <= v < c.workers
      ensures NodeInv(c, s', v)
    {
      SameDelivered(c, s, s', v);
      if v != w {
        assert NodeInv(c, s, v) && s'.nodes[v] == s.nodes[v];
      }
    }
  }

  lemma TakeNodeSound<S, E>(c: Config<S, E>, n: Node<S, E>, delivered: seq<nat>, order: seq<nat>)
    requires NodeSound(c, n, delivered) && n.phase.Idle? && n.queue != [] && InRange(c, n.queue)
    requires forall id | id in order :: id in n.shard
    ensures NodeSound(c, TakeNode(c, n, order), delivered)
  {
    hide SoundShard, Deltas, Handle, OutcomeOf, RepliesSound;
    var n' := TakeNode(c, n, order);
    assert n'.taken == n.taken + [n.queue[0]];
    assert n'.taken + n'.queue == n.taken + n.queue;
    assert n'.taken[..|n.taken|] == n.taken;
    RepliesExtend(c, n.taken, n.queue[0], n.replies);
  }

  lemma RepliesExtend<S, E>(c: Config<S, E>, taken: seq<nat>, i: nat, replies: seq<(nat, Outcome<S>)>)
    requires InRange(c, taken) && i < |c.messages| && RepliesSound(c, taken, replies)
    ensures InRange(c, taken + [i]) && RepliesSound(c, taken + [i], replies)
  {
    hide OutcomeOf, Local, SoundShard;
    assert forall j | 0 <= j < |taken| :: (taken + [i])[j] == taken[j] && (taken + [i])[..j] == taken[..j];
  }

  lemma TakeKeeps<S, E>(c: Config<S, E>, s: System<S, E>, w: nat, order: seq<nat>)
    requires Inv(c, s) && Enabled(c, s, Take(w, order))
    ensures Inv(c, Next(c, s, Take(w, order)))
  {
    hide Delivered, SoundShard, Deltas, Handle, OutcomeOf, NodeSound, TakeNode;
    var step := Take(w, order);
    NextShaped(c, s, step);
    var s' := Next(c, s, step);
    assert NodeInv(c, s, w);
    TakeNodeSound(c, s.nodes[w], Delivered(c, s, w), order);
    SameDelivered(c, s, s', w);
    OtherNodesKeep(c, s, s', w);
  }

  lemma SameDelivered<S, E>(c: Config<S, E>, s: System<S, E>, s': System<S, E>, w: nat)
    requires Shaped(c, s) && Shaped(c, s') && s'.next == s.next && s'.sub == s.sub
    ensures Delivered(c, s', w) == Delivered(c, s, w)
  {
  }

  /** Loading, exchanging and replying do not touch queues or histories. */
  lemma PublishKeeps<S, E>(c: Config<S, E>, s: System<S, E>, step: Step)
    requires Inv(c, s) && Enabled(c, s, step) && (step.LoadCounter? || step.CompareExchange? || step.SendReply?)
    ensures Inv(c, Next(c, s, step))
  {
    hide Delivered, OwnerOf, Indices, SoundShard, Local, Handle, OutcomeOf, InRange;
    NextShaped(c, s, step);
    var s' := Next(c, s, step);
    var w := step.worker;
    assert NodeInv(c, s, w);
    SameDelivered(c, s, s', w);
    OtherNodesKeep(c, s, s', w);
  }

  lemma NextKeeps<S, E>(c: Config<S, E>, s: System<S, E>, step: Step)
    requires Inv(c, s) && Enabled(c, s, step)
    ensures Inv(c, Next(c, s, step))
  {
    hide Inv, Next, Enabled;
    match step
    case Send => SendKeeps(c, s);
    case Take(w, order) => TakeKeeps(c, s, w, order);
    case LoadCounter(_, _) => PublishKeeps(c, s, step);
    case CompareExchange(_, _) => PublishKeeps(c, s, step);
    case SendReply(_) => PublishKeeps(c, s, step);
  }

  ghost predicate StepsTo<S(!new), E(!new)>(c: Config<S, E>, s: System<S, E>, s': System<S, E>) {
    Shaped(c, s) && exists step :: Enabled(c, s, step) && s' == Next(c, s, step)
  }

  /** Any interleaving of sender and worker steps. */
  ghost predicate Execution<S(!new), E(!new)>(c: Config<S, E>, states: seq<System<S, E>>) {
    && c.workers > 0 && states != [] && states[0] == Initial(c)
    && forall i | 0 <= i < |states| - 1 :: StepsTo(c, states[i], states[i + 1])
  }

  lemma {:induction false} ExecutionInv<S(!new), E(!new)>(c: Config<S, E>, states: seq<System<S, E>>, i: nat)
    requires Execution(c, states) && i < |states|
    ensures Inv(c, states[i])
  {
    hide Inv, Next, Enabled, Shaped;
    if i == 0 {
      InitialInv(c);
    } else {
      ExecutionInv(c, states, i - 1);
      assert StepsTo(c, states[i - 1], states[i]);
      var step :| Enabled(c, states[i - 1], step) && states[i] == Next(c, states[i - 1], step);
      NextKeeps(c, states[i - 1], step);
    }
  }

  /**
   * Sharding refines sequential execution: with any number of workers, any hash and any interleaving,
   * every reply a worker sends is the one a single map of histories gives that processes all messages
   * one after the other in send order, broadcast advances included.
   */
  lemma RepliesAreSequential<S(!new), E(!new)>(
      c: Config<S, E>, states: seq<System<S, E>>, i: nat, w: nat, j: nat)
    requires Execution(c, states) && i < |states| && w < c.workers
    requires Shaped(c, states[i]) && j < |states[i].nodes[w].replies|
    ensures var (index, outcome) := states[i].nodes[w].replies[j];
      && index < |c.messages| && Routed(c, c.messages[index], w)
      && outcome == OutcomeOf(c.d, Sequential(c, index), c.messages[index])
  {
    hide Handle, Sequential, Routed, SoundShard, Restrict, OutcomeOf;
    var s := states[i];
    ExecutionInv(c, states, i);
    assert NodeInv(c, s, w);
    var n := s.nodes[w];
    var all := Delivered(c, s, w);
    assert n.taken[j] == all[j] && n.taken[..j] == all[..j];
    DeliveredPrefix(c, s, w, j);
    var index := n.taken[j];
    LocalIsShare(c, index, w);
    HandleLocal(c, Sequential(c, index), c.messages[index], w);
  }

  /** What was delivered to a worker before message i is its share of the first i messages. */
  lemma DeliveredPrefix<S, E>(c: Config<S, E>, s: System<S, E>, w: nat, j: nat)
    requires Inv(c, s) && w < c.workers && j < |Delivered(c, s, w)|
    ensures var all := Delivered(c, s, w);
      && all[j] < |c.messages| && Routed(c, c.messages[all[j]], w)
      && all[..j] == Indices(c, all[j], w)
  {
    hide NodeInv;
    var all, r := Delivered(c, s, w), Indices(c, s.next, w);
    if j < |r| {
      IndicesPrefix(c, s.next, w, j);
      assert all[..j] == r[..j];
    } else {
      assert all[..j] == r;
    }
  }

  /**
   * When everything is sent, a worker that is idle with an empty queue has answered all its messages,
   * once and in order, and holds its share of the sequential map.
   */
  lemma AllAnswered<S(!new), E(!new)>(c: Config<S, E>, states: seq<System<S, E>>, i: nat, w: nat)
    requires Execution(c, states) && i < |states| && w < c.workers && Shaped(c, states[i])
    requires states[i].next == |c.messages|
    requires states[i].nodes[w].phase.Idle? && states[i].nodes[w].queue == []
    ensures var replies := states[i].nodes[w].replies;
      && |replies| == |Indices(c, |c.messages|, w)|
      && forall j | 0 <= j < |replies| :: replies[j].0 == Indices(c, |c.messages|, w)[j]
    ensures states[i].nodes[w].shard == Restrict(c, Sequential(c, |c.messages|), w)
  {
    hide Indices, Local, Sequential, OutcomeOf, Restrict, Handle;
    var s := states[i];
    ExecutionInv(c, states, i);
    assert NodeInv(c, s, w);
    var n := s.nodes[w];
    assert n.taken + [] == n.taken;
    assert Delivered(c, s, w) == Indices(c, |c.messages|, w);
    LocalIsShare(c, |c.messages|, w);
  }

  /**
   * A worker stops only at a query that panics: one routed to it, on the histories the single map has
   * at that point of the send order.
   */
  lemma DeadMeansPanic<S(!new), E(!new)>(c: Config<S, E>, states: seq<System<S, E>>, i: nat, w: nat)
    requires Execution(c, states) && i < |states| && w < c.workers
    requires Shaped(c, states[i]) && states[i].nodes[w].phase.Dead?
    ensures var at := states[i].nodes[w].phase.at;
      && at < |c.messages| && Routed(c, c.messages[at], w) && c.messages[at].SnapshotAtIn?
      && OutcomeOf(c.d, Sequential(c, at), c.messages[at]) == Panicked
  {
    hide Handle, Sequential, Routed, SoundShard, Restrict, OutcomeOf;
    var s := states[i];
    ExecutionInv(c, states, i);
    assert NodeInv(c, s, w);
    var n, all := s.nodes[w], Delivered(c, s, w);
    var last := |n.taken| - 1;
    assert n.taken[last] == all[last] && n.taken[..last] == all[..last];
    DeliveredPrefix(c, s, w, last);
    LocalIsShare(c, n.phase.at, w);
    HandleLocal(c, Sequential(c, n.phase.at), c.messages[n.phase.at], w);
    OnlyQueriesPanic(c.d, Sequential(c, n.phase.at), c.messages[n.phase.at]);
  }

  lemma OnlyQueriesPanic<S, E>(d: Domain<S, E>, m: Shard<S, E>, msg: Inbound<S, E>)
    requires SoundShard(m) && OutcomeOf(d, m, msg).Panicked?
    ensures msg.SnapshotAtIn?
  {
  }

  /** Every hash map has an enumeration. */
  lemma {:induction false} SomeOrder<S, E>(m: Shard<S, E>) returns (order: seq<nat>)
    ensures Enumerates(order, m)
    decreases |m|
  {
    if m == map[] {
      order := [];
    } else {
      var id :| id in m;
      var rest := m - {id};
      assert |rest| < |m| by { assert rest.Keys == m.Keys - {id}; }
      var before := SomeOrder(rest);
      order := before + [id];
    }
  }

  /** A worker that is not stopped can go on, unless it is idle with nothing to take. */
  lemma WorkerCanGoOn<S, E>(c: Config<S, E>, s: System<S, E>, w: nat)
    requires Shaped(c, s) && w < c.workers && !s.nodes[w].phase.Dead?
    requires forall step :: !Enabled(c, s, step)
    ensures s.nodes[w].phase.Idle? && s.nodes[w].queue == []
  {
    var n := s.nodes[w];
    assert !Enabled(c, s, LoadCounter(w, 0)) && !Enabled(c, s, CompareExchange(w, false));
    assert !Enabled(c, s, SendReply(w));
    if n.phase.Idle? && n.queue != [] {
      var order := SomeOrder(n.shard);
      assert !Enabled(c, s, Take(w, order)) && !Enabled(c, s, Take(w, []));
    }
  }

  /**
   * No deadlock: while no worker has stopped, a system in which no step is possible has sent everything,
   * and every worker is idle with an empty queue, so that every message is answered.
   */
  lemma NoDeadlock<S(!new), E(!new)>(c: Config<S, E>, states: seq<System<S, E>>, i: nat)
    requires Execution(c, states) && i < |states| && Shaped(c, states[i])
    requires forall w | 0 <= w < c.workers :: !states[i].nodes[w].phase.Dead?
    requires forall step :: !Enabled(c, states[i], step)
    ensures states[i].next == |c.messages|
    ensures forall w | 0 <= w < c.workers ::
      && states[i].nodes[w].phase.Idle? && states[i].nodes[w].queue == []
      && |states[i].nodes[w].replies| == |Indices(c, |c.messages|, w)|
  {
    hide Execution, Indices, NodeInv;
    var s := states[i];
    forall w | 0 <= w < c.workers
      ensures s.nodes[w].phase.Idle? && s.nodes[w].queue == []
    {
      WorkerCanGoOn(c, s, w);
    }
    assert !Enabled(c, s, Send);
    forall w | 0 <= w < c.workers
      ensures |s.nodes[w].replies| == |Indices(c, |c.messages|, w)|
    {
      AllAnswered(c, states, i, w);
    }
  }

  /** A queue holds at most a thousand messages, and a running worker with fewer always takes the next one. */
  lemma {:induction false} QueueLimit<S(!new), E(!new)>(c: Config<S, E>, states: seq<System<S, E>>, i: nat)
    requires Execution(c, states) && i < |states| && Shaped(c, states[i])
    ensures forall w | 0 <= w < c.workers :: |states[i].nodes[w].queue| <= 1000
    ensures states[i].next < |c.messages| ==>
      var n := states[i].nodes[Destination(c, states[i])];
      Enabled(c, states[i], Send) <==> !n.phase.Dead? && |n.queue| < 1000
  {
    hide Next, SoundShard, InRange, OwnerOf;
    if i > 0 {
      assert StepsTo(c, states[i - 1], states[i]);
      QueueLimit(c, states, i - 1);
      var step :| Enabled(c, states[i - 1], step) && states[i] == Next(c, states[i - 1], step);
      StepKeepsLimit(c, states[i - 1], step);
    }
  }

  lemma StepKeepsLimit<S, E>(c: Config<S, E>, s: System<S, E>, step: Step)
    requires Shaped(c, s) && Enabled(c, s, step) && forall w | 0 <= w < c.workers :: |s.nodes[w].queue| <= 1000
    ensures Shaped(c, Next(c, s, step)) && forall w | 0 <= w < c.workers :: |Next(c, s, step).nodes[w].queue| <= 1000
  {
    hide SoundShard, Handle, Deltas, OutcomeOf, OwnerOf;
    NextShaped(c, s, step);
  }
}
