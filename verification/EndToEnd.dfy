/** From a reply back to the naive timeline: through routing, interleaving, and checkpoints. */
module EndToEnd {
  import opened Domains
  import opened Histories
  import opened Timelines
  import opened Refinement
  import opened Queries
  import opened EventRuns
  import opened Workers
  import opened Sharding
  import opened SequentialRefinement

  /** What has happened to one entity: nothing yet, or opened from a snapshot and then operated on. */
  datatype Life<S, E> = Unborn | Born(initial: S, ops: seq<Op<S, E>>)

  function Live<S, E>(life: Life<S, E>, initial: S, first: seq<Op<S, E>>, op: Op<S, E>): Life<S, E> {
    match life
    case Unborn => Born(initial, first)
    case Born(s, ops) => Born(s, ops + [op])
  }

  /** One entity's share of the first `n` messages, as operations. */
  function LifeOf<S, E>(c: Config<S, E>, n: nat, id: nat): Life<S, E>
    requires n <= |c.messages|
  {
    if n == 0 then Unborn else
      var life := LifeOf(c, n - 1, id);
      match c.messages[n - 1]
      case EventIn(target, e, s) => if target == id then Live(life, s, [EventOp(e)], EventOp(e)) else life
      case SnapshotIn(s) => if c.d.snapshotId(s) == id then Live(life, s, [], SnapshotOp(s)) else life
      case SnapshotAtIn(_, _) => life
      case AdvanceIn(time) => if life.Born? then Live(life, life.initial, [], AdvanceOp(time)) else life
  }

  /** The sequential map holds, for each entity, the run of its own operations. */
  lemma {:induction false} SequentialIsRun<S, E>(c: Config<S, E>, n: nat, id: nat)
    requires n <= |c.messages|
    ensures var life, m := LifeOf(c, n, id), Sequential(c, n);
      && (life.Born? <==> id in m)
      && (life.Born? ==> m[id] == RunHistory(c.d, Open<S, E>(c.d, c.horizon, life.initial), life.ops))
  {
    hide WellFormed, ApplyEvent, ApplySnapshot, Advance, New, RunHistory, SoundShard;
    if n > 0 {
      SequentialIsRun(c, n - 1, id);
      var life := LifeOf(c, n - 1, id);
      match c.messages[n - 1]
      case EventIn(target, e, s) =>
        RunSnoc(c.d, Open<S, E>(c.d, c.horizon, if life.Born? then life.initial else s),
               if life.Born? then life.ops else [], EventOp(e));
      case SnapshotIn(s) =>
        RunSnoc(c.d, Open<S, E>(c.d, c.horizon, if life.Born? then life.initial else s),
               if life.Born? then life.ops else [], SnapshotOp(s));
      case SnapshotAtIn(_, _) =>
      case AdvanceIn(time) =>
        if life.Born? {
          RunSnoc(c.d, Open<S, E>(c.d, c.horizon, life.initial), life.ops, AdvanceOp(time));
        }
    }
  }

  /**
   * A reply to a query, whatever the number of workers, the hash and the interleaving, is `NotFound`
   * exactly when nothing was sent for the entity before; otherwise it is the answer of one history that
   * went through what was sent for it before, and the naive fold over its timeline if that run was safe.
   */
  lemma ReplyIsNaiveFold<S(!new), E(!new)>(
      c: Config<S, E>, states: seq<System<S, E>>, i: nat, w: nat, j: nat, id: nat, time: int)
    requires Execution(c, states) && i < |states| && w < c.workers && Lawful(c.d)
    requires Shaped(c, states[i]) && j < |states[i].nodes[w].replies|
    requires var index := states[i].nodes[w].replies[j].0;
      index < |c.messages| && c.messages[index] == SnapshotAtIn(id, time)
    ensures var (index, outcome) := states[i].nodes[w].replies[j];
      match LifeOf(c, index, id)
      case Unborn => outcome == NotFound
      case Born(initial, ops) =>
        var h0 := Open<S, E>(c.d, c.horizon, initial);
        && outcome.Queried?
        && SnapshotAt(c.d, RunHistory(c.d, h0, ops), time) == Found(outcome.state)
        && (SafeRun(c.d, h0, ops) ==>
              outcome == Queried(StateAt(c.d, Run(c.d, Start<S, E>(c.d, initial, 0, c.horizon), ops), time)))
  {
    hide Execution, Lawful, Sequential, LifeOf, Routed, SafeRun, SnapshotAt, StateAt;
    hide Run, Start, RunHistory, Represents, WellFormed, SoundShard;
    RepliesAreSequential(c, states, i, w, j);
    var (index, outcome) := states[i].nodes[w].replies[j];
    NoPanicReplies(c, states, i, w, j);
    SequentialIsRun(c, index, id);
    match LifeOf(c, index, id)
    case Unborn =>
    case Born(initial, ops) =>
      var h0 := Open<S, E>(c.d, c.horizon, initial);
      if SafeRun(c.d, h0, ops) {
        RunAnswers(c.d, c.horizon, initial, ops, time);
      }
  }

  lemma NoPanicReplies<S(!new), E(!new)>(
      c: Config<S, E>, states: seq<System<S, E>>, i: nat, w: nat, j: nat)
    requires Execution(c, states) && i < |states| && w < c.workers
    requires Shaped(c, states[i]) && j < |states[i].nodes[w].replies|
    ensures !states[i].nodes[w].replies[j].1.Panicked?
  {
    hide Delivered, Local, OutcomeOf, SoundShard, Execution;
    ExecutionShape(c, states);
    ExecutionInv(c, states, i);
    assert NodeInv(c, states[i], w);
  }

  lemma ExecutionShape<S(!new), E(!new)>(c: Config<S, E>, states: seq<System<S, E>>)
    requires Execution(c, states)
    ensures c.workers > 0
  {
  }

  lemma RunAnswers<S(!new), E(!new)>(d: Domain<S, E>, horizon: int, initial: S, ops: seq<Op<S, E>>, time: int)
    requires Lawful(d) && SafeRun(d, Open<S, E>(d, horizon, initial), ops)
    ensures var h := RunHistory(d, Open<S, E>(d, horizon, initial), ops);
      WellFormed(h) &&
      (SnapshotAt(d, h, time).RangePanic?
       || SnapshotAt(d, h, time) == Found(StateAt(d, Run(d, Start<S, E>(d, initial, 0, horizon), ops), time)))
  {
    hide Lawful, SafeRun, StateAt, Run, RunHistory, SnapshotAt, Start, New;
    NewRepresents<S, E>(d, initial, 0, horizon, CHECKPOINT_INTERVAL);
    var h0, t0 := Open<S, E>(d, horizon, initial), Start<S, E>(d, initial, 0, horizon);
    RunRefines(d, h0, t0, ops);
    QueryRefines(d, RunHistory(d, h0, ops), Run(d, t0, ops), time);
  }

  /** Without snapshots and advances in the traffic a life is made of events. */
  lemma {:induction false} EventLife<S, E>(c: Config<S, E>, n: nat, id: nat)
    requires n <= |c.messages| && forall msg | msg in c.messages :: msg.EventIn? || msg.SnapshotAtIn?
    ensures LifeOf(c, n, id).Born? ==> OnlyEvents(LifeOf(c, n, id).ops)
  {
    if n > 0 {
      EventLife(c, n - 1, id);
      assert c.messages[n - 1] in c.messages;
    }
  }

  /** For event traffic nothing has to be assumed: every reply is the naive fold. */
  lemma EventTrafficIsNaiveFold<S(!new), E(!new)>(
      c: Config<S, E>, states: seq<System<S, E>>, i: nat, w: nat, j: nat, id: nat, time: int)
    requires Execution(c, states) && i < |states| && w < c.workers && Lawful(c.d)
    requires Shaped(c, states[i]) && j < |states[i].nodes[w].replies|
    requires var index := states[i].nodes[w].replies[j].0;
      index < |c.messages| && c.messages[index] == SnapshotAtIn(id, time)
    requires forall msg | msg in c.messages :: msg.EventIn? || msg.SnapshotAtIn?
    ensures var (index, outcome) := states[i].nodes[w].replies[j];
      match LifeOf(c, index, id)
      case Unborn => outcome == NotFound
      case Born(initial, ops) =>
        outcome == Queried(StateAt(c.d, Run(c.d, Start<S, E>(c.d, initial, 0, c.horizon), ops), time))
  {
    hide Execution, Lawful, LifeOf, SafeRun, StateAt, Run, Start, RunHistory, Represents, New, OnlyEvents;
    var (index, outcome) := states[i].nodes[w].replies[j];
    ReplyIsNaiveFold(c, states, i, w, j, id, time);
    EventLife(c, index, id);
    match LifeOf(c, index, id)
    case Unborn =>
    case Born(initial, ops) => EventOpsSafe(c.d, c.horizon, initial, ops);
  }

  lemma EventOpsSafe<S, E>(d: Domain<S, E>, horizon: int, initial: S, ops: seq<Op<S, E>>)
    requires OnlyEvents(ops)
    ensures SafeRun(d, Open<S, E>(d, horizon, initial), ops)
  {
    hide New, Start, Represents, SafeRun;
    NewRepresents<S, E>(d, initial, 0, horizon, CHECKPOINT_INTERVAL);
    NewFields<S, E>(d, initial, 0, horizon, CHECKPOINT_INTERVAL);
    EventRun(d, Open<S, E>(d, horizon, initial), Start<S, E>(d, initial, 0, horizon), ops);
  }
}
