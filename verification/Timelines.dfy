/**
 * The naive reading of a history: a base state, the authoritative snapshots in force, and the stored
 * events. No checkpoints. A query folds everything from the last authoritative snapshot.
 */
module Timelines {
  import opened Keys
  import opened OrderedMaps
  import opened Domains
  import opened Checkpoints
  import opened Histories

  datatype Timeline<S, E> = Timeline(
    id: nat,
    base: S,
    auths: seq<Entry<S>>,
    events: seq<Entry<E>>,
    now: int,
    horizon: int)

  ghost predicate Ordered<S, E>(t: Timeline<S, E>) {
    Sorted(t.auths) && Sorted(t.events)
  }

  datatype Op<S, E> = EventOp(event: E) | SnapshotOp(snapshot: S) | AdvanceOp(time: int)

  function Start<S, E>(d: Domain<S, E>, snapshot: S, now: int, horizon: int): (t: Timeline<S, E>)
    ensures Ordered(t)
  {
    Timeline(d.snapshotId(snapshot), d.setTime(snapshot, 0), [], [], now, horizon)
  }

  /** A late event takes the authoritative snapshots at or after it out of force. */
  function Record<S, E>(d: Domain<S, E>, t: Timeline<S, E>, e: E): (t': Timeline<S, E>)
    requires Ordered(t)
    ensures Ordered(t')
  {
    var key := KeyOf(d, e);
    if Has(t.events, key) then t else
      var events := Insert(t.events, key, e);
      t.(events := events, auths := if IsLatest(events, key) then t.auths else Below(t.auths, key))
  }

  function Override<S, E>(d: Domain<S, E>, t: Timeline<S, E>, s: S): (t': Timeline<S, E>)
    requires Ordered(t)
    ensures Ordered(t')
  {
    if d.snapshotId(s) != t.id then t else t.(auths := Overridden(t.auths, SnapshotKey(d, t.id, s), s))
  }

  /** The state just before `key`, with every event stamped. */
  function StateBefore<S, E>(d: Domain<S, E>, t: Timeline<S, E>, key: Key): S
    requires Ordered(t)
  {
    var origin := Latest(t.base, Below(t.auths, key));
    Fold(d, origin.state, After(Below(t.events, key), origin.bound))
  }

  function DropKeyOf<S, E>(t: Timeline<S, E>, time: int): Key {
    Key(t.now + time - t.horizon, 0)
  }

  /** Pruning as it is meant: everything below the drop key is folded into the base. */
  function Prune<S, E>(d: Domain<S, E>, t: Timeline<S, E>, time: int): (t': Timeline<S, E>)
    requires Ordered(t)
    ensures Ordered(t')
  {
    var drop := DropKeyOf(t, time);
    t.(base := StateBefore(d, t, drop), auths := From(t.auths, drop), events := From(t.events, drop),
       now := t.now + time)
  }

  /** The naive answer: fold all events from the last authoritative snapshot, or the base. */
  function StateAt<S, E>(d: Domain<S, E>, t: Timeline<S, E>, time: int): S
    requires Ordered(t)
  {
    var key := Key(time, t.id);
    var origin := Latest(t.base, UpTo(t.auths, key));
    d.setTime(Replay(d, origin.state, After(Below(t.events, key), origin.bound)), time)
  }

  function Perform<S, E>(d: Domain<S, E>, t: Timeline<S, E>, op: Op<S, E>): (t': Timeline<S, E>)
    requires Ordered(t)
    ensures Ordered(t')
  {
    match op
    case EventOp(e) => Record(d, t, e)
    case SnapshotOp(s) => Override(d, t, s)
    case AdvanceOp(time) => Prune(d, t, time)
  }

  function Run<S, E>(d: Domain<S, E>, t: Timeline<S, E>, ops: seq<Op<S, E>>): (t': Timeline<S, E>)
    requires Ordered(t)
    ensures Ordered(t')
  {
    if ops == [] then t else Perform(d, Run(d, t, ops[..|ops| - 1]), ops[|ops| - 1])
  }
}
