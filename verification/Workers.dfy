/** A worker: one shard of histories, changed by one message at a time. */
module Workers {
  import opened Domains
  import opened Histories
  import opened LocalSnapshotHistories
  import opened Timelines
  import opened Ledger

  datatype Inbound<S, E> =
    | EventIn(snapshotId: nat, event: E, initial: S)
    | SnapshotIn(snapshot: S)
    | SnapshotAtIn(queryId: nat, at: int)
    | AdvanceIn(time: int)

  /** What a worker does about a message's reply. A panic ends the worker without a reply. */
  datatype Outcome<S> = Done | Queried(state: S) | NotFound | Panicked

  type Shard<S, E> = map<nat, History<S, E>>

  ghost predicate SoundShard<S, E>(m: Shard<S, E>) {
    forall id | id in m :: WellFormed(m[id])
  }

  /** The history a worker opens for an unknown id. */
  function Open<S, E>(d: Domain<S, E>, horizon: int, s: S): (h: History<S, E>)
    ensures WellFormed(h)
  {
    New(d, s, 0, horizon, CHECKPOINT_INTERVAL)
  }

  function Handle<S, E>(d: Domain<S, E>, horizon: int, m: Shard<S, E>, msg: Inbound<S, E>): (m': Shard<S, E>)
    requires SoundShard(m)
    ensures SoundShard(m')
  {
    match msg
    case EventIn(id, e, s) =>
      m[id := ApplyEvent(d, if id in m then m[id] else Open(d, horizon, s), e)]
    case SnapshotIn(s) =>
      var id := d.snapshotId(s);
      m[id := if id in m then ApplySnapshot(d, m[id], s) else Open(d, horizon, s)]
    case SnapshotAtIn(_, _) => m
    case AdvanceIn(time) => map id | id in m :: Advance(m[id], time)
  }

  function OutcomeOf<S, E>(d: Domain<S, E>, m: Shard<S, E>, msg: Inbound<S, E>): Outcome<S>
    requires SoundShard(m)
  {
    match msg
    case SnapshotAtIn(id, time) =>
      if id !in m then NotFound else
        (match SnapshotAt(d, m[id], time)
         case Found(s) => Queried(s)
         case RangePanic => Panicked)
    case _ => Done
  }

  function BaseSize<S, E>(d: Domain<S, E>, s: S): nat {
    d.snapshotSize(d.setTime(s, 0))
  }

  /** The order in which a broadcast advance walks the hash map: some enumeration of its keys. */
  ghost predicate Enumerates<S, E>(order: seq<nat>, m: Shard<S, E>) {
    && (forall i, j | 0 <= i < j < |order| :: order[i] != order[j])
    && (forall id :: id in order <==> id in m)
  }

  lemma EnumeratesSnoc<S, E>(order: seq<nat>, m: Shard<S, E>, rest: set<nat>, id: nat)
    requires Enumerates(order, m - rest) && id in rest && id in m
    ensures Enumerates(order + [id], m - (rest - {id}))
    ensures forall i | i in order + [id] :: i in m
  {
  }

  lemma EnumeratesEnds<S, E>(m: Shard<S, E>)
    ensures Enumerates([], m - m.Keys) && m - {} == m
  {
  }

  function AdvanceDeltas<S, E>(d: Domain<S, E>, m: Shard<S, E>, time: int, order: seq<nat>): (r: seq<int>)
    requires SoundShard(m) && forall id | id in order :: id in m
    ensures |r| == |order|
  {
    if order == [] then [] else
      var n := |order| - 1;
      AdvanceDeltas(d, m, time, order[..n]) + [OpDelta(d, m[order[n]], AdvanceOp(time))]
  }

  lemma AdvanceDeltasNone<S, E>(d: Domain<S, E>, m: Shard<S, E>, time: int)
    requires SoundShard(m)
    ensures AdvanceDeltas(d, m, time, []) == []
  {
  }

  lemma AdvanceDeltasSnoc<S, E>(d: Domain<S, E>, m: Shard<S, E>, time: int, order: seq<nat>, id: nat)
    requires SoundShard(m) && id in m && forall i | i in order :: i in m
    ensures forall i | i in order + [id] :: i in m
    ensures AdvanceDeltas(d, m, time, order + [id])
         == AdvanceDeltas(d, m, time, order) + [OpDelta(d, m[id], AdvanceOp(time))]
  {
  }

  /** The signed amounts the worker adds to the shared counter for a message, in this order. */
  function Deltas<S, E>(d: Domain<S, E>, horizon: int, m: Shard<S, E>, msg: Inbound<S, E>, order: seq<nat>): seq<int>
    requires SoundShard(m) && forall id | id in order :: id in m
  {
    match msg
    case EventIn(id, e, s) =>
      if id in m then [OpDelta(d, m[id], EventOp(e))]
      else [BaseSize(d, s), OpDelta(d, Open(d, horizon, s), EventOp(e))]
    case SnapshotIn(s) =>
      var id := d.snapshotId(s);
      [if id in m then OpDelta(d, m[id], SnapshotOp(s)) else BaseSize(d, s)]
    case SnapshotAtIn(_, _) => []
    case AdvanceIn(time) => AdvanceDeltas(d, m, time, order)
  }

  lemma DeltaOfEvent<S, E>(d: Domain<S, E>, h: History<S, E>, e: E)
    requires WellFormed(h)
    ensures OpDelta(d, h, EventOp(e)) == Footprint(d, ApplyEvent(d, h, e)) - Footprint(d, h)
                                       + OverwrittenBytes(d, h.checkpoints, h.events, e)
  {
  }

  lemma DeltaOfSnapshot<S, E>(d: Domain<S, E>, h: History<S, E>, s: S)
    requires WellFormed(h)
    ensures OpDelta(d, h, SnapshotOp(s)) == Footprint(d, ApplySnapshot(d, h, s)) - Footprint(d, h)
  {
  }

  lemma DeltaOfAdvance<S, E>(d: Domain<S, E>, h: History<S, E>, time: int)
    requires WellFormed(h)
    ensures OpDelta(d, h, AdvanceOp(time)) == Footprint(d, Advance(h, time)) - Footprint(d, h)
  {
  }

  /** The message loop's state, and one turn of the loop. */
  class Worker<S, E> {
    const d: Domain<S, E>
    const horizon: int
    var historyById: map<nat, LocalSnapshotHistory<S, E>>
    ghost var Repr: set<object>

    /** The objects one history is made of. */
    static ghost function Parts(h: LocalSnapshotHistory<S, E>): set<object>
      reads h
    {
      {h, h.events, h.checkpoints}
    }

    /** Every history is sound and no two share an object. */
    ghost predicate Valid()
      reads this, Repr
    {
      && this !in Repr
      && (forall id | id in historyById ::
            && historyById[id] in Repr && Parts(historyById[id]) <= Repr
            && historyById[id].Valid() && historyById[id].d == d)
      && (forall i, j | i in historyById && j in historyById && i != j ::
            Parts(historyById[i]) !! Parts(historyById[j]))
    }

    /** The histories this worker holds, as values. */
    ghost function Shards(): (m: Shard<S, E>)
      requires Valid()
      reads this, Repr
      ensures SoundShard(m) && m.Keys == historyById.Keys
    {
      map id | id in historyById :: historyById[id].Value()
    }

    /** A history whose objects nobody touched is as it was. */
    twostate lemma Untouched(h: LocalSnapshotHistory<S, E>)
      requires old(h.Valid()) && forall o | o in old(Parts(h)) :: unchanged(o)
      ensures Parts(h) == old(Parts(h)) && h.Valid() && h.Value() == old(h.Value())
    {
      assert old(h in Parts(h) && h.events in Parts(h) && h.checkpoints in Parts(h));
    }

    /** When only the history of `id` changes, and takes no object of another one, the rest stays. */
    twostate lemma OneChanged(id: nat)
      requires old(Valid()) && id in historyById && historyById == old(historyById)
      requires Repr == old(Repr) + Parts(historyById[id])
      requires historyById[id].Valid() && historyById[id].d == d
      requires forall o | o in Parts(historyById[id]) :: o in old(Parts(historyById[id])) || fresh(o)
      requires forall o | o in old(Repr) && o !in old(Parts(historyById[id])) :: unchanged(o)
      ensures Valid()
      ensures Shards() == old(Shards())[id := historyById[id].Value()]
    {
      hide LocalSnapshotHistory.Valid, LocalSnapshotHistory.Value, WellFormed, Parts;
      HoldsObject(historyById[id]);
      forall j | j in historyById && j != id
        ensures Parts(historyById[j]) == old(Parts(historyById[j])) && historyById[j].Valid()
        ensures historyById[j].Value() == old(historyById[j].Value())
      {
        assert old(Parts(historyById[j])) !! old(Parts(historyById[id]));
        Untouched(historyById[j]);
      }
    }

    /** When a new history is added, made of new objects, the rest stays. */
    twostate lemma OneAdded(id: nat, new h: LocalSnapshotHistory<S, E>)
      requires old(Valid()) && id !in old(historyById) && historyById == old(historyById)[id := h]
      requires Repr == old(Repr) + Parts(h) && h.Valid() && h.d == d
      requires forall o | o in Parts(h) :: fresh(o)
      requires forall o | o in old(Repr) :: unchanged(o)
      ensures Valid()
      ensures Shards() == old(Shards())[id := h.Value()]
    {
      hide LocalSnapshotHistory.Valid, LocalSnapshotHistory.Value, WellFormed, Parts;
      HoldsObject(h);
      assert Parts(h) !! old(Repr);
      forall j | j in old(historyById)
        ensures Parts(historyById[j]) == old(Parts(historyById[j])) && historyById[j].Valid()
        ensures historyById[j].Value() == old(historyById[j].Value())
      {
        Untouched(historyById[j]);
      }
    }

    lemma HoldsObject(h: LocalSnapshotHistory<S, E>)
      ensures h in Parts(h)
    {
    }

    /** What `Valid` says about one history. */
    lemma Holds(id: nat)
      requires Valid() && id in historyById
      ensures var h := historyById[id];
        && Parts(h) <= Repr && this !in Repr && h.Valid() && h.d == d && Shards()[id] == h.Value()
    {
    }

    constructor (d: Domain<S, E>, horizon: int)
      ensures Valid() && Shards() == map[] && this.d == d && this.horizon == horizon && Repr == {}
    {
      this.d := d;
      this.horizon := horizon;
      this.historyById := map[];
      this.Repr := {};
    }

    /** Returns the reply and the amounts published to the shared counter on the way. */
    method Turn(msg: Inbound<S, E>) returns (outcome: Outcome<S>, deltas: seq<int>, ghost order: seq<nat>)
      requires Valid()
      modifies this, Repr
      ensures Valid() && fresh(Repr - old(Repr))
      ensures Shards() == Handle(d, horizon, old(Shards()), msg)
      ensures outcome == OutcomeOf(d, old(Shards()), msg)
      ensures if msg.AdvanceIn? then Enumerates(order, old(Shards())) else order == []
      ensures deltas == Deltas(d, horizon, old(Shards()), msg, order)
    {
      hide ApplyEvent, ApplySnapshot, Advance, Open, OpDelta, WellFormed, Valid, Shards, AdvanceDeltas, BaseSize;
      hide SnapshotAt;
      outcome, deltas, order := Done, [], [];
      match msg
      case AdvanceIn(time) =>
        deltas, order := AdvanceAll(time);
      case EventIn(id, e, s) =>
        deltas := ApplyEventTo(id, e, s);
      case SnapshotIn(s) =>
        var delta := ApplySnapshotTo(s);
        deltas := [delta];
      case SnapshotAtIn(id, time) =>
        outcome := Query(id, time);
    }

    method Query(id: nat, time: int) returns (outcome: Outcome<S>)
      requires Valid()
      ensures outcome == OutcomeOf(d, Shards(), SnapshotAtIn(id, time))
    {
      if id in historyById {
        var answer, _ := historyById[id].SnapshotAt(time);
        outcome := match answer case Found(s) => Queried(s) case RangePanic => Panicked;
      } else {
        outcome := NotFound;
      }
    }

    /** Opens a history for `id`, which has none yet. */
    method Add(id: nat, s: S) returns (baseSize: int)
      requires Valid() && id !in historyById
      modifies this
      ensures Valid() && fresh(Repr - old(Repr)) && id in historyById
      ensures Shards() == old(Shards())[id := Open(d, horizon, s)]
      ensures baseSize == BaseSize(d, s)
    {
      hide New, WellFormed, Shards, LocalSnapshotHistory.Valid, LocalSnapshotHistory.Value;
      var h;
      h, baseSize := LocalSnapshotHistory.Create(d, s, 0, horizon);
      historyById := historyById[id := h];
      Repr := Repr + Parts(h);
      OneAdded(id, h);
    }

    method ApplyEventTo(id: nat, e: E, s: S) returns (deltas: seq<int>)
      requires Valid()
      modifies this, Repr
      ensures Valid() && fresh(Repr - old(Repr))
      ensures Shards() == Handle(d, horizon, old(Shards()), EventIn(id, e, s))
      ensures deltas == Deltas(d, horizon, old(Shards()), EventIn(id, e, s), [])
    {
      hide ApplyEvent, OpDelta, WellFormed, Valid, Shards, Open, BaseSize;
      deltas := [];
      if id !in historyById {
        var baseSize := Add(id, s);
        deltas := [baseSize];
      }
      var delta := ApplyEventAt(id, e);
      deltas := deltas + [delta];
    }

    /** Lets the history of a known id apply an event. */
    method ApplyEventAt(id: nat, e: E) returns (delta: int)
      requires Valid() && id in historyById
      modifies Repr
      ensures Valid() && historyById == old(historyById) && Repr == old(Repr)
      ensures Shards() == old(Shards())[id := ApplyEvent(d, old(Shards())[id], e)]
      ensures delta == OpDelta(d, old(Shards())[id], EventOp(e))
    {
      hide ApplyEvent, OpDelta, Footprint, OverwrittenBytes, WellFormed, Sent, EventNotice, ApplyCost;
      hide Valid, Shards, LocalSnapshotHistory.Valid, LocalSnapshotHistory.Value;
      Holds(id);
      DeltaOfEvent(d, historyById[id].Value(), e);
      delta := historyById[id].ApplyEvent(e);
      OneChanged(id);
    }

    method ApplySnapshotTo(s: S) returns (delta: int)
      requires Valid()
      modifies this, Repr
      ensures Valid() && fresh(Repr - old(Repr))
      ensures Shards() == Handle(d, horizon, old(Shards()), SnapshotIn(s))
      ensures [delta] == Deltas(d, horizon, old(Shards()), SnapshotIn(s), [])
    {
      hide ApplySnapshot, OpDelta, WellFormed, Valid, Shards, Open, BaseSize;
      var id := d.snapshotId(s);
      if id in historyById {
        delta := ApplySnapshotAt(id, s);
      } else {
        delta := Add(id, s);
      }
    }

    /** Lets the history of a known id install a snapshot. */
    method ApplySnapshotAt(id: nat, s: S) returns (delta: int)
      requires Valid() && id in historyById
      modifies Repr
      ensures Valid() && historyById == old(historyById) && Repr == old(Repr)
      ensures Shards() == old(Shards())[id := ApplySnapshot(d, old(Shards())[id], s)]
      ensures delta == OpDelta(d, old(Shards())[id], SnapshotOp(s))
    {
      hide ApplySnapshot, OpDelta, Footprint, WellFormed, Sent, SnapshotNotice;
      hide Valid, Shards, LocalSnapshotHistory.Valid, LocalSnapshotHistory.Value;
      Holds(id);
      DeltaOfSnapshot(d, historyById[id].Value(), s);
      delta := historyById[id].ApplySnapshot(s);
      OneChanged(id);
    }

    /** Lets the history of a known id advance; its two maps are replaced by new ones. */
    method AdvanceAt(id: nat, time: int) returns (delta: int)
      requires Valid() && id in historyById
      modifies this`Repr, Repr
      ensures Valid() && historyById == old(historyById) && fresh(Repr - old(Repr)) && old(Repr) <= Repr
      ensures Shards() == old(Shards())[id := Advance(old(Shards())[id], time)]
      ensures delta == OpDelta(d, old(Shards())[id], AdvanceOp(time))
    {
      hide Advance, OpDelta, Footprint, WellFormed;
      hide Valid, Shards, LocalSnapshotHistory.Valid, LocalSnapshotHistory.Value;
      Holds(id);
      var h := historyById[id];
      ghost var value := h.Value();
      DeltaOfAdvance(d, value, time);
      delta := h.Advance(time);
      Repr := Repr + Parts(h);
      OneChanged(id);
    }

    /** The loop over all histories of a broadcast advance, in the map's own order. */
    method AdvanceAll(time: int) returns (deltas: seq<int>, ghost order: seq<nat>)
      requires Valid()
      modifies this, Repr
      ensures Valid() && fresh(Repr - old(Repr))
      ensures Shards() == map id | id in old(Shards()) :: Advance(old(Shards())[id], time)
      ensures Enumerates(order, old(Shards()))
      ensures deltas == AdvanceDeltas(d, old(Shards()), time, order)
    {
      hide OpDelta, Advance, WellFormed, AdvanceDeltas, Enumerates, Valid, Shards;
      ghost var m := Shards();
      var rest := historyById.Keys;
      EnumeratesEnds(m);
      deltas, order := [], [];
      AdvanceDeltasNone(d, m, time);
      while rest != {}
        invariant Valid() && fresh(Repr - old(Repr)) && m == old(Shards()) && SoundShard(m)
        invariant rest <= m.Keys && Shards().Keys == m.Keys == historyById.Keys
        invariant forall id | id in m :: Shards()[id] == if id in rest then m[id] else Advance(m[id], time)
        invariant Enumerates(order, m - rest) && forall i | i in order :: i in m
        invariant deltas == AdvanceDeltas(d, m, time, order)
        decreases rest
      {
        var id :| id in rest;
        EnumeratesSnoc(order, m, rest, id);
        AdvanceDeltasSnoc(d, m, time, order, id);
        var delta := AdvanceAt(id, time);
        deltas := deltas + [delta];
        rest := rest - {id};
        order := order + [id];
      }
    }
  }
}
