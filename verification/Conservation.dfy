/** The shared usage counter equals what the workers have published, and at rest what they hold. */
module Conservation {
  import opened Domains
  import opened Histories
  import opened Timelines
  import opened Ledger
  import opened Workers
  import opened Sharding
  import opened SequentialRefinement

  function Sum(xs: seq<int>): int {
    if xs == [] then 0 else Sum(xs[..|xs| - 1]) + xs[|xs| - 1]
  }

  lemma {:induction false} SumConcat(xs: seq<int>, ys: seq<int>)
    ensures Sum(xs + ys) == Sum(xs) + Sum(ys)
  {
    if ys == [] {
      assert xs + ys == xs;
    } else {
      SumConcat(xs, ys[..|ys| - 1]);
      assert (xs + ys)[..|xs + ys| - 1] == xs + ys[..|ys| - 1];
    }
  }

  /** Bytes of all events and checkpoints in a shard. */
  ghost function Held<S, E>(d: Domain<S, E>, m: Shard<S, E>): nat {
    if m == map[] then 0 else
      var id :| id in m;
      Footprint(d, m[id]) + Held(d, m - {id})
  }

  lemma {:induction false} HeldWithout<S, E>(d: Domain<S, E>, m: Shard<S, E>, id: nat)
    requires id in m
    ensures Held(d, m) == Footprint(d, m[id]) + Held(d, m - {id})
    decreases |m|
  {
    hide Footprint;
    var pick :| pick in m && Held(d, m) == Footprint(d, m[pick]) + Held(d, m - {pick});
    if pick != id {
      HeldWithout(d, m - {pick}, id);
      HeldWithout(d, m - {id}, pick);
      assert m - {pick} - {id} == m - {id} - {pick};
    }
  }

  lemma HeldUpdate<S, E>(d: Domain<S, E>, m: Shard<S, E>, id: nat, h: History<S, E>)
    ensures Held(d, m[id := h]) == Held(d, m) + Footprint(d, h) - (if id in m then Footprint(d, m[id]) else 0)
  {
    hide Footprint;
    HeldWithout(d, m[id := h], id);
    assert m[id := h] - {id} == m - {id};
    if id in m {
      HeldWithout(d, m, id);
    } else {
      assert m - {id} == m;
    }
  }

  /** The same sum along an enumeration of the ids. */
  function HeldAlong<S, E>(d: Domain<S, E>, m: Shard<S, E>, order: seq<nat>): nat
    requires forall id | id in order :: id in m
  {
    if order == [] then 0 else
      HeldAlong(d, m, order[..|order| - 1]) + Footprint(d, m[order[|order| - 1]])
  }

  lemma {:induction false} HeldByOrder<S, E>(d: Domain<S, E>, m: Shard<S, E>, order: seq<nat>)
    requires Enumerates(order, m)
    ensures Held(d, m) == HeldAlong(d, m, order)
    decreases |order|
  {
    hide Footprint, Held, Enumerates;
    if order == [] {
      EnumeratesNothing(d, m);
    } else {
      var n := |order| - 1;
      EnumeratesRest(order, m);
      HeldByOrder(d, m - {order[n]}, order[..n]);
      HeldWithout(d, m, order[n]);
      EnumeratesMembers(order, m);
      EnumeratesMembers(order[..n], m - {order[n]});
      AlongSame(d, m, m - {order[n]}, order[..n]);
    }
  }

  lemma EnumeratesNothing<S, E>(d: Domain<S, E>, m: Shard<S, E>)
    requires Enumerates([], m)
    ensures Held(d, m) == 0
  {
    assert m == map[];
  }

  lemma EnumeratesMembers<S, E>(order: seq<nat>, m: Shard<S, E>)
    requires Enumerates(order, m)
    ensures forall id | id in order :: id in m
  {
  }

  lemma EnumeratesRest<S, E>(order: seq<nat>, m: Shard<S, E>)
    requires Enumerates(order, m) && order != []
    ensures order[|order| - 1] in m && Enumerates(order[..|order| - 1], m - {order[|order| - 1]})
  {
    var n := |order| - 1;
    var rest := m - {order[n]};
    assert order[n] in order;
    forall x
      ensures x in order[..n] <==> x in rest
    {
      if x in rest { assert x in order; }
      if x in order[..n] { assert x in order; }
    }
  }

  lemma {:induction false} AlongSame<S, E>(d: Domain<S, E>, m: Shard<S, E>, m': Shard<S, E>, order: seq<nat>)
    requires forall id | id in order :: id in m && id in m' && m[id] == m'[id]
    ensures HeldAlong(d, m, order) == HeldAlong(d, m', order)
  {
    hide Footprint;
    if order != [] {
      assert order[|order| - 1] in order;
      AlongSame(d, m, m', order[..|order| - 1]);
    }
  }

  /** A prefix of an enumeration holds no more than the whole. */
  lemma {:induction false} AlongPrefix<S, E>(d: Domain<S, E>, m: Shard<S, E>, order: seq<nat>, j: nat)
    requires j <= |order| && forall id | id in order :: id in m
    ensures HeldAlong(d, m, order[..j]) <= HeldAlong(d, m, order)
  {
    hide Footprint;
    if j < |order| {
      AlongPrefix(d, m, order[..|order| - 1], j);
      assert order[..|order| - 1][..j] == order[..j];
    } else {
      assert order[..j] == order;
    }
  }

  /** Advancing every history in some order: the deltas add up to the change in what is held. */
  lemma {:induction false} AdvanceSum<S, E>(d: Domain<S, E>, m: Shard<S, E>, time: int, order: seq<nat>)
    requires SoundShard(m) && forall id | id in order :: id in m
    ensures var m' := map id | id in m :: Advance(m[id], time);
      Sum(AdvanceDeltas(d, m, time, order)) == HeldAlong(d, m', order) - HeldAlong(d, m, order)
  {
    hide Footprint, Advance, WellFormed;
    if order != [] {
      var n := |order| - 1;
      AdvanceSum(d, m, time, order[..n]);
      assert order[n] in order;
      var xs, x := AdvanceDeltas(d, m, time, order[..n]), OpDelta(d, m[order[n]], AdvanceOp(time));
      assert (xs + [x])[..|xs|] == xs;
    }
  }

  lemma {:induction false} AdvanceDeltasPrefix<S, E>(
      d: Domain<S, E>, m: Shard<S, E>, time: int, order: seq<nat>, j: nat)
    requires SoundShard(m) && j <= |order| && forall id | id in order :: id in m
    ensures AdvanceDeltas(d, m, time, order)[..j] == AdvanceDeltas(d, m, time, order[..j])
  {
    hide OpDelta, WellFormed;
    if j < |order| {
      AdvanceDeltasPrefix(d, m, time, order[..|order| - 1], j);
      assert order[..|order| - 1][..j] == order[..j];
    } else {
      assert order[..j] == order;
    }
  }

  /** What a message adds to the creation-time base sizes. */
  function Opened<S, E>(d: Domain<S, E>, m: Shard<S, E>, msg: Inbound<S, E>): nat {
    match msg
    case EventIn(id, _, s) => if id in m then 0 else BaseSize(d, s)
    case SnapshotIn(s) => if d.snapshotId(s) in m then 0 else BaseSize(d, s)
    case _ => 0
  }

  /** What a message adds to the ledger beyond what is held (see Histories.Overwrites). */
  function Slack<S, E>(d: Domain<S, E>, horizon: int, m: Shard<S, E>, msg: Inbound<S, E>): nat
    requires SoundShard(m)
  {
    match msg
    case EventIn(id, e, s) =>
      var h := if id in m then m[id] else Open(d, horizon, s);
      OverwrittenBytes(d, h.checkpoints, h.events, e)
    case _ => 0
  }

  lemma SumOne(x: int)
    ensures Sum([x]) == x && [x][..0] == [] && [x][..1] == [x] && Sum([]) == 0
  {
  }

  lemma SumTwo(x: int, y: int)
    ensures Sum([x, y]) == x + y && [x, y][..1] == [x] && [x, y][..2] == [x, y]
  {
    SumOne(x);
    assert [x, y][..1] == [x];
  }

  /** The deltas of one message add up to the change in what the shard accounts for. */
  lemma MessageBalance<S, E>(d: Domain<S, E>, horizon: int, m: Shard<S, E>, msg: Inbound<S, E>, order: seq<nat>)
    requires SoundShard(m) && (if msg.AdvanceIn? then Enumerates(order, m) else order == [])
    ensures Sum(Deltas(d, horizon, m, msg, order))
         == Held(d, Handle(d, horizon, m, msg)) - Held(d, m) + Opened(d, m, msg) + Slack(d, horizon, m, msg)
  {
    hide Footprint, ApplyEvent, ApplySnapshot, Advance, OverwrittenBytes, Held, WellFormed, HeldAlong, AdvanceDeltas;
    match msg
    case EventIn(id, e, s) =>
      var h := if id in m then m[id] else Open(d, horizon, s);
      HeldUpdate(d, m, id, ApplyEvent(d, h, e));
      OpenHoldsNothing<S, E>(d, horizon, s);
      SumOne(OpDelta(d, h, EventOp(e)));
      SumTwo(BaseSize(d, s), OpDelta(d, h, EventOp(e)));
    case SnapshotIn(s) =>
      var id := d.snapshotId(s);
      HeldUpdate(d, m, id, Handle(d, horizon, m, msg)[id]);
      OpenHoldsNothing<S, E>(d, horizon, s);
      SumOne(Deltas(d, horizon, m, msg, order)[0]);
    case SnapshotAtIn(_, _) =>
    case AdvanceIn(time) =>
      AdvanceSum(d, m, time, order);
      HeldByOrder(d, m, order);
      HeldByOrder(d, Handle(d, horizon, m, msg), order);
  }

  lemma OpenHoldsNothing<S, E>(d: Domain<S, E>, horizon: int, s: S)
    ensures Footprint(d, Open<S, E>(d, horizon, s)) == 0
  {
  }

  /** No run of a message's deltas takes out more than the shard holds. */
  lemma MessageNeverOverdraws<S, E>(
      d: Domain<S, E>, horizon: int, m: Shard<S, E>, msg: Inbound<S, E>, order: seq<nat>, j: nat)
    requires SoundShard(m) && (if msg.AdvanceIn? then Enumerates(order, m) else order == [])
    requires j <= |Deltas(d, horizon, m, msg, order)|
    ensures Held(d, m) + Sum(Deltas(d, horizon, m, msg, order)[..j]) >= 0
  {
    hide Footprint, ApplyEvent, ApplySnapshot, Advance, OverwrittenBytes, Held, WellFormed, HeldAlong, AdvanceDeltas;
    var xs := Deltas(d, horizon, m, msg, order);
    if j == 0 {
      assert xs[..0] == [];
    } else if j == |xs| {
      assert xs[..j] == xs;
      MessageBalance(d, horizon, m, msg, order);
    } else {
      match msg
      case EventIn(id, e, s) =>
        SumTwo(BaseSize(d, s), OpDelta(d, Open(d, horizon, s), EventOp(e)));
        SumOne(BaseSize(d, s));
      case AdvanceIn(time) =>
        AdvanceDeltasPrefix(d, m, time, order, j);
        AdvanceSum(d, m, time, order[..j]);
        AlongPrefix(d, m, order, j);
        HeldByOrder(d, m, order);
    }
  }

  // ---- over executions ----

  /** Everything a worker accounts for after these messages: base sizes at creation, bytes held, slack. */
  ghost function Account<S, E>(c: Config<S, E>, indices: seq<nat>): nat
    requires InRange(c, indices)
  {
    CreatedBytes(c, indices) + Held(c.d, Local(c, indices)) + SlackBytes(c, indices)
  }

  function CreatedBytes<S, E>(c: Config<S, E>, indices: seq<nat>): nat
    requires InRange(c, indices)
  {
    if indices == [] then 0 else
      var n := |indices| - 1;
      CreatedBytes(c, indices[..n]) + Opened(c.d, Local(c, indices[..n]), c.messages[indices[n]])
  }

  function SlackBytes<S, E>(c: Config<S, E>, indices: seq<nat>): nat
    requires InRange(c, indices)
  {
    if indices == [] then 0 else
      var n := |indices| - 1;
      SlackBytes(c, indices[..n]) + Slack(c.d, c.horizon, Local(c, indices[..n]), c.messages[indices[n]])
  }

  function Pending<S, E>(n: Node<S, E>): seq<int> {
    if n.phase.Publishing? then n.phase.todo else []
  }

  /** Published plus pending is the account, and no commit ahead takes the worker's share below zero. */
  ghost predicate Balanced<S, E>(c: Config<S, E>, n: Node<S, E>) {
    && InRange(c, n.taken)
    && n.published + Sum(Pending(n)) == Account(c, n.taken)
    && forall j | 0 <= j <= |Pending(n)| :: n.published + Sum(Pending(n)[..j]) >= 0
  }

  lemma TakeBalances<S, E>(c: Config<S, E>, n: Node<S, E>, order: seq<nat>)
    requires Balanced(c, n) && n.phase.Idle? && n.queue != [] && InRange(c, n.queue) && SoundShard(n.shard)
    requires n.shard == Local(c, n.taken)
    requires if c.messages[n.queue[0]].AdvanceIn? then Enumerates(order, n.shard) else order == []
    ensures Balanced(c, TakeNode(c, n, order))
  {
    hide Handle, Deltas, OutcomeOf, SoundShard, Account;
    var msg := c.messages[n.queue[0]];
    var n' := TakeNode(c, n, order);
    var xs := Deltas(c.d, c.horizon, n.shard, msg, order);
    QueryHasNoDeltas(c, n.shard, msg, order);
    assert Pending(n') == xs && Pending(n) == [];
    AccountTake(c, n.taken, n.queue[0], order);
    forall j | 0 <= j <= |xs|
      ensures n'.published + Sum(xs[..j]) >= 0
    {
      MessageNeverOverdraws(c.d, c.horizon, n.shard, msg, order, j);
    }
  }

  lemma AccountTake<S, E>(c: Config<S, E>, taken: seq<nat>, i: nat, order: seq<nat>)
    requires InRange(c, taken) && i < |c.messages|
    requires if c.messages[i].AdvanceIn? then Enumerates(order, Local(c, taken)) else order == []
    ensures InRange(c, taken + [i])
    ensures Account(c, taken + [i])
         == Account(c, taken) + Sum(Deltas(c.d, c.horizon, Local(c, taken), c.messages[i], order))
    ensures Account(c, taken) >= Held(c.d, Local(c, taken))
  {
    hide Handle, Deltas, Held, Opened, Slack, SoundShard;
    assert (taken + [i])[..|taken|] == taken;
    MessageBalance(c.d, c.horizon, Local(c, taken), c.messages[i], order);
  }

  lemma QueryHasNoDeltas<S, E>(c: Config<S, E>, m: Shard<S, E>, msg: Inbound<S, E>, order: seq<nat>)
    requires SoundShard(m) && forall id | id in order :: id in m
    ensures OutcomeOf(c.d, m, msg).Panicked? ==> Deltas(c.d, c.horizon, m, msg, order) == []
  {
  }

  lemma ExchangeBalances<S, E>(c: Config<S, E>, n: Node<S, E>, counter: nat, spurious: bool)
    requires Balanced(c, n) && n.phase.Publishing? && n.phase.todo != [] && n.phase.load.Loaded?
    ensures Balanced(c, ExchangeNode(n, counter, spurious))
  {
    hide Account;
    var todo, n' := n.phase.todo, ExchangeNode(n, counter, spurious);
    if n'.published != n.published || n'.phase.todo != todo {
      var rest := todo[1..];
      assert todo == [todo[0]] + rest;
      SumConcat([todo[0]], rest);
      SumOne(todo[0]);
      forall j | 0 <= j <= |rest|
        ensures n'.published + Sum(rest[..j]) >= 0
      {
        assert todo[..j + 1] == [todo[0]] + rest[..j];
        SumConcat([todo[0]], rest[..j]);
      }
    }
  }

  function Published<S, E>(nodes: seq<Node<S, E>>): int {
    if nodes == [] then 0 else Published(nodes[..|nodes| - 1]) + nodes[|nodes| - 1].published
  }

  lemma {:induction false} PublishedUpdate<S, E>(nodes: seq<Node<S, E>>, w: nat, n: Node<S, E>)
    requires w < |nodes|
    ensures Published(nodes[w := n]) == Published(nodes) - nodes[w].published + n.published
  {
    var k := |nodes| - 1;
    if w < k {
      PublishedUpdate(nodes[..k], w, n);
      assert nodes[w := n][..k] == nodes[..k][w := n];
    } else {
      assert nodes[w := n][..k] == nodes[..k];
    }
  }

  lemma {:induction false} PublishedNonNegative<S, E>(c: Config<S, E>, nodes: seq<Node<S, E>>)
    requires forall w | 0 <= w < |nodes| :: Balanced(c, nodes[w])
    ensures Published(nodes) >= 0
  {
    hide Balanced;
    if nodes != [] {
      PublishedNonNegative(c, nodes[..|nodes| - 1]);
      BalancedNonNegative(c, nodes[|nodes| - 1]);
    }
  }

  lemma BalancedNonNegative<S, E>(c: Config<S, E>, n: Node<S, E>)
    requires Balanced(c, n)
    ensures n.published >= 0 && (Pending(n) != [] ==> n.published + Pending(n)[0] >= 0)
  {
    hide Account;
    var xs := Pending(n);
    assert xs[..0] == [];
    if xs != [] {
      SumOne(xs[0]);
      assert xs[..1] == [xs[0]];
    }
  }

  ghost predicate CounterInv<S, E>(c: Config<S, E>, s: System<S, E>) {
    && s.counter == Published(s.nodes)
    && forall w | 0 <= w < |s.nodes| :: Balanced(c, s.nodes[w])
  }

  /** The amounts fit the counter's 64 bits. */
  predicate Fits<S, E>(s: System<S, E>) {
    Published(s.nodes) <= 18446744073709551615
  }

  lemma NodeChangeKeepsCounter<S, E>(c: Config<S, E>, s: System<S, E>, s': System<S, E>, w: nat)
    requires CounterInv(c, s) && w < |s.nodes| && |s'.nodes| == |s.nodes| && s'.nodes == s.nodes[w := s'.nodes[w]]
    requires Balanced(c, s'.nodes[w])
    requires s'.counter - s.counter == s'.nodes[w].published - s.nodes[w].published
    ensures CounterInv(c, s')
  {
    hide Balanced;
    PublishedUpdate(s.nodes, w, s'.nodes[w]);
  }

  lemma SameBalance<S, E>(c: Config<S, E>, n: Node<S, E>, n': Node<S, E>)
    requires Balanced(c, n) && n'.taken == n.taken && n'.published == n.published && Pending(n') == Pending(n)
    ensures Balanced(c, n')
  {
  }

  /**
   * A successful exchange moves the counter by exactly the pending amount: the subtraction never
   * saturates, and the addition does not as long as the amounts fit.
   */
  lemma ExchangeExact<S, E>(c: Config<S, E>, s: System<S, E>, step: Step)
    requires Inv(c, s) && CounterInv(c, s) && Enabled(c, s, step) && step.CompareExchange?
    requires Fits(Next(c, s, step))
    ensures var s' := Next(c, s, step);
      s'.counter - s.counter == s'.nodes[step.worker].published - s.nodes[step.worker].published
  {
    hide NodeInv, Balanced, Published, Account;
    var w, s' := step.worker, Next(c, s, step);
    assert Balanced(c, s.nodes[w]);
    BalancedNonNegative(c, s.nodes[w]);
    PublishedUpdate(s.nodes, w, s'.nodes[w]);
    OthersNonNegative(c, s.nodes, w);
  }

  lemma {:induction false} OthersNonNegative<S, E>(c: Config<S, E>, nodes: seq<Node<S, E>>, w: nat)
    requires w < |nodes| && forall v | 0 <= v < |nodes| :: Balanced(c, nodes[v])
    ensures Published(nodes) >= nodes[w].published
  {
    hide Balanced;
    var k := |nodes| - 1;
    if w < k {
      OthersNonNegative(c, nodes[..k], w);
      BalancedNonNegative(c, nodes[k]);
    } else {
      PublishedNonNegative(c, nodes[..k]);
    }
  }

  lemma StepKeepsCounter<S, E>(c: Config<S, E>, s: System<S, E>, step: Step)
    requires Inv(c, s) && CounterInv(c, s) && Enabled(c, s, step) && Fits(Next(c, s, step))
    ensures CounterInv(c, Next(c, s, step))
  {
    hide Balanced, Published, NodeInv, OwnerOf, SoundShard, InRange;
    var s' := Next(c, s, step);
    match step
    case Send =>
      var w := Destination(c, s);
      SameBalance(c, s.nodes[w], s'.nodes[w]);
      NodeChangeKeepsCounter(c, s, s', w);
    case Take(w, order) =>
      NodeShard(c, s, w);
      TakeBalances(c, s.nodes[w], order);
      NodeChangeKeepsCounter(c, s, s', w);
    case LoadCounter(w, _) =>
      SameBalance(c, s.nodes[w], s'.nodes[w]);
      NodeChangeKeepsCounter(c, s, s', w);
    case CompareExchange(w, spurious) =>
      ExchangeBalances(c, s.nodes[w], s.counter, spurious);
      ExchangeExact(c, s, step);
      NodeChangeKeepsCounter(c, s, s', w);
    case SendReply(w) =>
      SameBalance(c, s.nodes[w], s'.nodes[w]);
      NodeChangeKeepsCounter(c, s, s', w);
  }

  lemma NodeShard<S, E>(c: Config<S, E>, s: System<S, E>, w: nat)
    requires Inv(c, s) && w < c.workers
    ensures s.nodes[w].shard == Local(c, s.nodes[w].taken)
  {
    assert NodeInv(c, s, w);
  }

  lemma {:induction false} ExecutionCounter<S(!new), E(!new)>(c: Config<S, E>, states: seq<System<S, E>>, i: nat)
    requires Execution(c, states) && i < |states| && forall j | 0 <= j <= i :: Fits(states[j])
    ensures CounterInv(c, states[i])
  {
    hide Inv, Next, Enabled, Shaped, CounterInv, Fits;
    if i == 0 {
      InitialCounter(c);
    } else {
      ExecutionCounter(c, states, i - 1);
      ExecutionInv(c, states, i - 1);
      assert StepsTo(c, states[i - 1], states[i]);
      var step :| Enabled(c, states[i - 1], step) && states[i] == Next(c, states[i - 1], step);
      StepKeepsCounter(c, states[i - 1], step);
    }
  }

  lemma InitialCounter<S, E>(c: Config<S, E>)
    requires c.workers > 0
    ensures CounterInv(c, Initial(c))
  {
    var s := Initial(c);
    FreshPublished(s.nodes);
    forall w | 0 <= w < |s.nodes|
      ensures Balanced(c, s.nodes[w])
    {
      assert s.nodes[w] == Node([], [], map[], Idle, [], 0);
    }
  }

  lemma {:induction false} FreshPublished<S, E>(nodes: seq<Node<S, E>>)
    requires forall w | 0 <= w < |nodes| :: nodes[w].published == 0
    ensures Published(nodes) == 0
  {
    if nodes != [] {
      FreshPublished(nodes[..|nodes| - 1]);
    }
  }

  ghost function Accounts<S, E>(c: Config<S, E>, nodes: seq<Node<S, E>>): nat
    requires forall w | 0 <= w < |nodes| :: InRange(c, nodes[w].taken)
  {
    if nodes == [] then 0 else
      Accounts(c, nodes[..|nodes| - 1]) + Account(c, nodes[|nodes| - 1].taken)
  }

  /** The accounts of the workers that have stopped, or of those that have not. */
  ghost function AccountsOf<S, E>(c: Config<S, E>, nodes: seq<Node<S, E>>, dead: bool): nat
    requires forall w | 0 <= w < |nodes| :: InRange(c, nodes[w].taken)
  {
    if nodes == [] then 0 else
      var n := nodes[|nodes| - 1];
      AccountsOf(c, nodes[..|nodes| - 1], dead) + if n.phase.Dead? == dead then Account(c, n.taken) else 0
  }

  lemma {:induction false} AccountsSplit<S, E>(c: Config<S, E>, nodes: seq<Node<S, E>>)
    requires forall w | 0 <= w < |nodes| :: InRange(c, nodes[w].taken)
    ensures Accounts(c, nodes) == AccountsOf(c, nodes, false) + AccountsOf(c, nodes, true)
    ensures (forall w | 0 <= w < |nodes| :: !nodes[w].phase.Dead?) ==> AccountsOf(c, nodes, true) == 0
  {
    hide Account, InRange;
    if nodes != [] {
      AccountsSplit(c, nodes[..|nodes| - 1]);
    }
  }

  /**
   * What a panic does to the counter: a worker that stops drops its histories, but nothing takes their
   * charge back. At rest the counter exceeds the accounts of the running workers by exactly the accounts
   * of the stopped ones, and by nothing when none has stopped.
   */
  lemma StoppedWorkersStayCharged<S(!new), E(!new)>(c: Config<S, E>, states: seq<System<S, E>>, i: nat)
    requires Execution(c, states) && i < |states| && forall j | 0 <= j <= i :: Fits(states[j])
    requires forall w | 0 <= w < |states[i].nodes| :: Pending(states[i].nodes[w]) == []
    ensures var nodes := states[i].nodes;
      && (forall w | 0 <= w < |nodes| :: InRange(c, nodes[w].taken))
      && states[i].counter == AccountsOf(c, nodes, false) + AccountsOf(c, nodes, true)
      && ((forall w | 0 <= w < |nodes| :: !nodes[w].phase.Dead?) ==>
            states[i].counter == AccountsOf(c, nodes, false))
  {
    hide Execution, Fits, Account, Accounts, AccountsOf, Published, Pending;
    CounterConserved(c, states, i);
    AccountsSplit(c, states[i].nodes);
  }

  /**
   * Conservation: over every interleaving of the exchange loops the counter equals what the workers
   * have published, and when no worker has amounts pending it equals the base sizes at creation plus
   * the bytes of all stored events and checkpoints, plus the slack of overwritten checkpoints. A stopped
   * worker counts with what it held when it stopped.
   */
  lemma CounterConserved<S(!new), E(!new)>(c: Config<S, E>, states: seq<System<S, E>>, i: nat)
    requires Execution(c, states) && i < |states| && forall j | 0 <= j <= i :: Fits(states[j])
    ensures states[i].counter == Published(states[i].nodes)
    ensures (forall w | 0 <= w < |states[i].nodes| :: Pending(states[i].nodes[w]) == []) ==>
      && (forall w | 0 <= w < |states[i].nodes| :: InRange(c, states[i].nodes[w].taken))
      && states[i].counter == Accounts(c, states[i].nodes)
  {
    hide Execution, Fits, Account;
    ExecutionCounter(c, states, i);
    if forall w | 0 <= w < |states[i].nodes| :: Pending(states[i].nodes[w]) == [] {
      AccountsPublished(c, states[i].nodes);
    }
  }

  lemma {:induction false} AccountsPublished<S, E>(c: Config<S, E>, nodes: seq<Node<S, E>>)
    requires forall w | 0 <= w < |nodes| :: Balanced(c, nodes[w]) && Pending(nodes[w]) == []
    ensures forall w | 0 <= w < |nodes| :: InRange(c, nodes[w].taken)
    ensures Published(nodes) == Accounts(c, nodes)
  {
    hide Account;
    if nodes != [] {
      AccountsPublished(c, nodes[..|nodes| - 1]);
      assert Balanced(c, nodes[|nodes| - 1]);
    }
  }

  /** Without authoritative snapshots there is no slack, whatever advances do. */
  lemma {:induction false} NoSlackWithoutSnapshots<S, E>(c: Config<S, E>, indices: seq<nat>)
    requires InRange(c, indices) && forall msg | msg in c.messages :: !msg.SnapshotIn?
    ensures SlackBytes(c, indices) == 0
    ensures forall id | id in Local(c, indices) :: CheckpointsOnEvents(Local(c, indices)[id])
  {
    hide CheckpointsOnEvents, ApplyEvent, Advance, WellFormed, OverwrittenBytes, InRange;
    if indices != [] {
      var n := |indices| - 1;
      RangeParts(c, indices);
      NoSlackWithoutSnapshots(c, indices[..n]);
      var m, msg := Local(c, indices[..n]), c.messages[indices[n]];
      assert msg in c.messages;
      match msg
      case EventIn(id, e, s) =>
        var h := if id in m then m[id] else Open(c.d, c.horizon, s);
        OpenOnEvents<S, E>(c.d, c.horizon, s);
        EventStaysOnEvents(c.d, h, e);
        OnEventsOverwritesNothing(c.d, h, e);
      case SnapshotAtIn(_, _) =>
      case AdvanceIn(time) =>
        forall id | id in m
          ensures CheckpointsOnEvents(Advance(m[id], time))
        {
          AdvanceStaysOnEvents(m[id], time);
        }
    }
  }

  lemma RangeParts<S, E>(c: Config<S, E>, indices: seq<nat>)
    requires InRange(c, indices) && indices != []
    ensures InRange(c, indices[..|indices| - 1]) && indices[|indices| - 1] < |c.messages|
  {
  }

  lemma OpenOnEvents<S, E>(d: Domain<S, E>, horizon: int, s: S)
    ensures CheckpointsOnEvents(Open<S, E>(d, horizon, s))
  {
  }
}
