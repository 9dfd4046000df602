/**
 * The worker system as steps: a sender that delivers messages one queue at a time, workers that take
 * a message, publish its byte deltas to one shared counter by compare-and-swap, and reply.
 */
module Sharding {
  import opened Domains
  import opened Multiples
  import opened Histories
  import opened Workers

  const QUEUE_CAPACITY: nat := 1000
  const U64_MAX: nat := 0xFFFF_FFFF_FFFF_FFFF

  /** `messages` are the admitted requests of one sender, flattened in send order. */
  datatype Config<!S, !E> = Config(
    d: Domain<S, E>,
    hash: nat -> nat,
    workers: nat,
    horizon: int,
    messages: seq<Inbound<S, E>>)

  datatype Load = NotLoaded | Loaded(value: nat)

  datatype Phase<S> =
    | Idle
    | Publishing(index: nat, todo: seq<int>, load: Load, outcome: Outcome<S>)
    | Dead(at: nat)

  /**
   * One worker: its inbound queue (message indices), the messages it has taken so far, its histories,
   * what it is doing, and the replies it has sent. `published` is what it has added to the counter.
   */
  datatype Node<S, E> = Node(
    queue: seq<nat>,
    taken: seq<nat>,
    shard: Shard<S, E>,
    phase: Phase<S>,
    replies: seq<(nat, Outcome<S>)>,
    published: int)

  datatype System<S, E> = System(next: nat, sub: nat, nodes: seq<Node<S, E>>, counter: nat)

  datatype Step =
    | Send
    | Take(worker: nat, order: seq<nat>)
    | LoadCounter(worker: nat, value: nat)
    | CompareExchange(worker: nat, spurious: bool)
    | SendReply(worker: nat)

  function TargetOf<S, E>(d: Domain<S, E>, msg: Inbound<S, E>): nat
    requires !msg.AdvanceIn?
  {
    match msg
    case EventIn(id, _, _) => id
    case SnapshotIn(s) => d.snapshotId(s)
    case SnapshotAtIn(id, _) => id
  }

  function OwnerOf<S, E>(c: Config<S, E>, id: nat): (w: nat)
    requires c.workers > 0
    ensures w < c.workers
  {
    c.hash(id) % c.workers
  }

  /** The owner is the remainder of the id's hash: every worker owns the ids whose hash falls on it. */
  lemma OwnerIsRemainder<S, E>(c: Config<S, E>, id: nat, q: nat, w: nat)
    requires w < c.workers && c.hash(id) == q * c.workers + w
    ensures OwnerOf(c, id) == w
  {
    var k := c.workers;
    QuotientUnique(k, c.hash(id) / k, c.hash(id) % k, q, w);
  }

  /** A broadcast goes to every worker, any other message to the owner of its id. */
  predicate Routed<S, E>(c: Config<S, E>, msg: Inbound<S, E>, w: nat)
    requires c.workers > 0
  {
    msg.AdvanceIn? || OwnerOf(c, TargetOf(c.d, msg)) == w
  }

  function Restrict<S, E>(c: Config<S, E>, m: Shard<S, E>, w: nat): Shard<S, E>
    requires c.workers > 0
  {
    map id | id in m && OwnerOf(c, id) == w :: m[id]
  }

  /** One single map of histories that has processed the first `n` messages in send order. */
  function Sequential<S, E>(c: Config<S, E>, n: nat): (m: Shard<S, E>)
    requires n <= |c.messages|
    ensures SoundShard(m)
  {
    if n == 0 then map[] else Handle(c.d, c.horizon, Sequential(c, n - 1), c.messages[n - 1])
  }

  ghost predicate InRange<S, E>(c: Config<S, E>, indices: seq<nat>) {
    forall j | 0 <= j < |indices| :: indices[j] < |c.messages|
  }

  /** The histories of a worker that has processed these messages. */
  function Local<S, E>(c: Config<S, E>, indices: seq<nat>): (m: Shard<S, E>)
    requires InRange(c, indices)
    ensures SoundShard(m)
  {
    if indices == [] then map[] else
      var n := |indices| - 1;
      Handle(c.d, c.horizon, Local(c, indices[..n]), c.messages[indices[n]])
  }

  /** The messages among the first `n` that go to worker `w`. */
  function Indices<S, E>(c: Config<S, E>, n: nat, w: nat): (r: seq<nat>)
    requires c.workers > 0 && n <= |c.messages|
    ensures forall j | 0 <= j < |r| :: r[j] < n && Routed(c, c.messages[r[j]], w)
  {
    if n == 0 then [] else
      Indices(c, n - 1, w) + if Routed(c, c.messages[n - 1], w) then [n - 1] else []
  }

  lemma HandleLocal<S, E>(c: Config<S, E>, m: Shard<S, E>, msg: Inbound<S, E>, w: nat)
    requires c.workers > 0 && SoundShard(m)
    ensures SoundShard(Restrict(c, m, w))
    ensures Restrict(c, Handle(c.d, c.horizon, m, msg), w)
         == if Routed(c, msg, w) then Handle(c.d, c.horizon, Restrict(c, m, w), msg) else Restrict(c, m, w)
    ensures Routed(c, msg, w) ==> OutcomeOf(c.d, Restrict(c, m, w), msg) == OutcomeOf(c.d, m, msg)
  {
    hide ApplyEvent, ApplySnapshot, Advance, SnapshotAt, New, WellFormed, OwnerOf;
  }

  /** What a worker has computed is its share of the sequential map. */
  lemma {:induction false} LocalIsShare<S, E>(c: Config<S, E>, n: nat, w: nat)
    requires c.workers > 0 && n <= |c.messages|
    ensures Local(c, Indices(c, n, w)) == Restrict(c, Sequential(c, n), w)
  {
    hide Handle, Routed, SoundShard;
    if n == 0 {
      assert Restrict(c, Sequential(c, 0), w) == map[];
    } else {
      LocalIsShare(c, n - 1, w);
      HandleLocal(c, Sequential(c, n - 1), c.messages[n - 1], w);
      var r, r' := Indices(c, n - 1, w), Indices(c, n, w);
      if Routed(c, c.messages[n - 1], w) {
        assert r'[..|r' | - 1] == r;
      } else {
        assert r' == r;
      }
    }
  }

  /** The messages a worker sees before message i are exactly its messages among the first i. */
  lemma {:induction false} IndicesPrefix<S, E>(c: Config<S, E>, n: nat, w: nat, j: nat)
    requires c.workers > 0 && n <= |c.messages| && j < |Indices(c, n, w)|
    ensures var r := Indices(c, n, w); r[..j] == Indices(c, r[j], w)
  {
    hide Routed;
    var r := Indices(c, n, w);
    var before := Indices(c, n - 1, w);
    if j < |before| {
      IndicesPrefix(c, n - 1, w, j);
      assert r[..j] == before[..j];
    } else {
      assert r[..j] == before;
    }
  }

  // ---- steps ----

  function Initial<S, E>(c: Config<S, E>): System<S, E> {
    System(0, 0, seq(c.workers, _ => Node([], [], map[], Idle, [], 0)), 0)
  }

  ghost predicate Shaped<S, E>(c: Config<S, E>, s: System<S, E>) {
    && c.workers > 0 && |s.nodes| == c.workers && s.sub < c.workers && s.next <= |c.messages|
    && forall w | 0 <= w < c.workers ::
         SoundShard(s.nodes[w].shard) && InRange(c, s.nodes[w].queue) && InRange(c, s.nodes[w].taken)
  }

  /** The queue the sender's next delivery goes to. */
  function Destination<S, E>(c: Config<S, E>, s: System<S, E>): (w: nat)
    requires Shaped(c, s) && s.next < |c.messages|
    ensures w < c.workers
  {
    var msg := c.messages[s.next];
    if msg.AdvanceIn? then s.sub else OwnerOf(c, TargetOf(c.d, msg))
  }

  ghost predicate Enabled<S, E>(c: Config<S, E>, s: System<S, E>, step: Step)
    requires Shaped(c, s)
  {
    match step
    case Send =>
      && s.next < |c.messages|
      && var n := s.nodes[Destination(c, s)];
         |n.queue| < QUEUE_CAPACITY && !n.phase.Dead?
    case Take(w, order) =>
      && w < c.workers && s.nodes[w].phase.Idle? && s.nodes[w].queue != []
      && (if c.messages[s.nodes[w].queue[0]].AdvanceIn? then Enumerates(order, s.nodes[w].shard) else order == [])
    case LoadCounter(w, _) =>
      w < c.workers && s.nodes[w].phase.Publishing? && s.nodes[w].phase.todo != [] && s.nodes[w].phase.load.NotLoaded?
    case CompareExchange(w, _) =>
      w < c.workers && s.nodes[w].phase.Publishing? && s.nodes[w].phase.todo != [] && s.nodes[w].phase.load.Loaded?
    case SendReply(w) =>
      w < c.workers && s.nodes[w].phase.Publishing? && s.nodes[w].phase.todo == []
  }

  function SaturatingAdd(current: nat, delta: int): nat {
    if delta >= 0 then (if current + delta > U64_MAX then U64_MAX else current + delta)
    else (if current + delta < 0 then 0 else current + delta)
  }

  /** The counter has 64 bits and stops at either end. */
  lemma SaturatesAtEnds(current: nat, delta: int)
    requires current <= 18446744073709551615
    ensures SaturatingAdd(current, delta) <= 18446744073709551615
    ensures 0 <= current + delta <= 18446744073709551615 ==> SaturatingAdd(current, delta) == current + delta
    ensures current + delta < 0 ==> SaturatingAdd(current, delta) == 0
    ensures current + delta > 18446744073709551615 ==> SaturatingAdd(current, delta) == 18446744073709551615
  {
  }

  function TakeNode<S, E>(c: Config<S, E>, n: Node<S, E>, order: seq<nat>): (n': Node<S, E>)
    requires n.queue != [] && InRange(c, n.queue) && SoundShard(n.shard)
    requires forall id | id in order :: id in n.shard
    ensures SoundShard(n'.shard)
  {
    var i := n.queue[0];
    var msg := c.messages[i];
    var outcome := OutcomeOf(c.d, n.shard, msg);
    n.(queue := n.queue[1..], taken := n.taken + [i], shard := Handle(c.d, c.horizon, n.shard, msg),
       phase := if outcome.Panicked? then Dead(i)
                else Publishing(i, Deltas(c.d, c.horizon, n.shard, msg, order), NotLoaded, outcome))
  }

  /**
   * A load may return any earlier value of the counter, and the sum is computed from what was loaded; only the
   * exchange compares with the present value.
   */
  function ExchangeNode<S, E>(n: Node<S, E>, counter: nat, spurious: bool): Node<S, E>
    requires n.phase.Publishing? && n.phase.todo != [] && n.phase.load.Loaded?
  {
    if !spurious && counter == n.phase.load.value
    then n.(phase := n.phase.(todo := n.phase.todo[1..], load := NotLoaded), published := n.published + n.phase.todo[0])
    else n.(phase := n.phase.(load := NotLoaded))
  }

  function Next<S, E>(c: Config<S, E>, s: System<S, E>, step: Step): System<S, E>
    requires Shaped(c, s) && Enabled(c, s, step)
  {
    match step
    case Send =>
      var w := Destination(c, s);
      var nodes := s.nodes[w := s.nodes[w].(queue := s.nodes[w].queue + [s.next])];
      if c.messages[s.next].AdvanceIn? && s.sub + 1 < c.workers
      then s.(nodes := nodes, sub := s.sub + 1)
      else s.(nodes := nodes, sub := 0, next := s.next + 1)
    case Take(w, order) => s.(nodes := s.nodes[w := TakeNode(c, s.nodes[w], order)])
    case LoadCounter(w, value) =>
      s.(nodes := s.nodes[w := s.nodes[w].(phase := s.nodes[w].phase.(load := Loaded(value)))])
    case CompareExchange(w, spurious) =>
      var n := s.nodes[w];
      s.(nodes := s.nodes[w := ExchangeNode(n, s.counter, spurious)],
         counter := if !spurious && s.counter == n.phase.load.value
                    then SaturatingAdd(n.phase.load.value, n.phase.todo[0]) else s.counter)
    case SendReply(w) =>
      var n := s.nodes[w];
      s.(nodes := s.nodes[w := n.(phase := Idle, replies := n.replies + [(n.phase.index, n.phase.outcome)])])
  }

  lemma NextShaped<S, E>(c: Config<S, E>, s: System<S, E>, step: Step)
    requires Shaped(c, s) && Enabled(c, s, step)
    ensures Shaped(c, Next(c, s, step))
  {
    hide SoundShard, Handle, Deltas, OutcomeOf, OwnerOf;
  }

  /** The messages delivered to a worker so far; a broadcast under way has reached the workers below `sub`. */
  function Delivered<S, E>(c: Config<S, E>, s: System<S, E>, w: nat): seq<nat>
    requires Shaped(c, s)
  {
    Indices(c, s.next, w)
      + if s.next < |c.messages| && c.messages[s.next].AdvanceIn? && w < s.sub then [s.next] else []
  }

  /** How many of the taken messages have been answered. */
  function Answered<S, E>(n: Node<S, E>): int {
    if n.phase.Idle? then |n.taken| else |n.taken| - 1
  }

  /** What holds at every moment of a worker that has been delivered these messages. */
  ghost predicate NodeSound<S, E>(c: Config<S, E>, n: Node<S, E>, delivered: seq<nat>) {
    && InRange(c, n.taken) && SoundShard(n.shard)
    && n.taken + n.queue == delivered
    && n.shard == Local(c, n.taken)
    && |n.replies| == Answered(n)
    && RepliesSound(c, n.taken, n.replies)
    && (n.phase.Publishing? ==>
          var last := |n.taken| - 1;
          && n.taken[last] == n.phase.index && !n.phase.outcome.Panicked?
          && n.phase.outcome == OutcomeOf(c.d, Local(c, n.taken[..last]), c.messages[n.phase.index]))
    && (n.phase.Dead? ==>
          var last := |n.taken| - 1;
          && n.taken[last] == n.phase.at
          && OutcomeOf(c.d, Local(c, n.taken[..last]), c.messages[n.phase.at]).Panicked?)
  }

  /** The replies answer the taken messages in order, each with the worker's state at that point. */
  ghost predicate RepliesSound<S, E>(c: Config<S, E>, taken: seq<nat>, replies: seq<(nat, Outcome<S>)>)
    requires InRange(c, taken)
  {
    && |replies| <= |taken|
    && forall j | 0 <= j < |replies| ::
         replies[j] == (taken[j], OutcomeOf(c.d, Local(c, taken[..j]), c.messages[taken[j]]))
         && !replies[j].1.Panicked?
  }

  ghost predicate NodeInv<S, E>(c: Config<S, E>, s: System<S, E>, w: nat)
    requires Shaped(c, s) && w < c.workers
  {
    NodeSound(c, s.nodes[w], Delivered(c, s, w))
  }

  ghost predicate Inv<S, E>(c: Config<S, E>, s: System<S, E>) {
    && Shaped(c, s)
    && (s.sub > 0 ==> s.next < |c.messages| && c.messages[s.next].AdvanceIn?)
    && forall w | 0 <= w < c.workers :: NodeInv(c, s, w)
  }
}
