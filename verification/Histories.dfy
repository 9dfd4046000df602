/**
 * One snapshot's history as a value, and what each operation of the engine makes of it. The class
 * in LocalSnapshotHistory.dfy computes these functions in place. `rooted` says whether the event
 * map owns a root node, which it keeps when pruning empties it.
 */
module Histories {
  import opened Keys
  import opened OrderedMaps
  import opened MapFacts
  import opened Domains
  import opened Multiples
  import opened Checkpoints

  datatype History<S, E> = History(
    id: nat,
    base: S,
    events: seq<Entry<E>>,
    rooted: bool,
    checkpoints: seq<Entry<S>>,
    interval: nat,
    now: int,
    horizon: int)

  ghost predicate WellFormed<S, E>(h: History<S, E>) {
    h.interval > 0 && Sorted(h.events) && Sorted(h.checkpoints) && (h.events != [] ==> h.rooted)
  }

  datatype Reconciliation = Reconciliation(snapshotId: nat, fromTime: int, toTime: int)

  /** A query's outcome. `BTreeMap::range` panics on a rooted map when both ends exclude the same key. */
  datatype Answer<S> = Found(state: S) | RangePanic

  const CHECKPOINT_INTERVAL: nat := 100

  function New<S, E>(d: Domain<S, E>, snapshot: S, now: int, horizon: int, interval: nat): (h: History<S, E>)
    requires interval > 0
    ensures WellFormed(h)
  {
    History(d.snapshotId(snapshot), d.setTime(snapshot, 0), [], false, [], interval, now, horizon)
  }

  /** Keep these checkpoints and rebuild the ones that follow. */
  function Resume<S, E>(
      d: Domain<S, E>, base: S, keep: seq<Entry<S>>, events: seq<Entry<E>>, k: nat): (r: seq<Entry<S>>)
    requires k > 0 && Sorted(keep) && Sorted(events)
    ensures Sorted(r)
  {
    ResumeSorted(d, base, keep, events, k);
    keep + Rebuild(d, Latest(base, keep).state, After(events, Latest(base, keep).bound), k)
  }

  lemma ResumeSorted<S, E>(d: Domain<S, E>, base: S, keep: seq<Entry<S>>, events: seq<Entry<E>>, k: nat)
    requires k > 0 && Sorted(keep) && Sorted(events)
    ensures Sorted(keep + Rebuild(d, Latest(base, keep).state, After(events, Latest(base, keep).bound), k))
  {
    var a := Latest(base, keep);
    var tail := After(events, a.bound);
    var r := Rebuild(d, a.state, tail, k);
    RebuildKeys(d, a.state, tail, k);
    if keep != [] && r != [] {
      assert r[0] in r;
      assert Beyond(a.bound, tail[0].key);
    }
    SortedConcat(keep, r);
  }

  predicate IsLatest<V>(events: seq<Entry<V>>, key: Key)
    requires Sorted(events)
  {
    After(events, Excluded(key)) == []
  }

  /** The append path: no rebuilding, at most one new checkpoint. */
  function AppendCheckpoint<S, E>(
      d: Domain<S, E>, base: S, checkpoints: seq<Entry<S>>, events: seq<Entry<E>>, key: Key, k: nat): (r: seq<Entry<S>>)
    requires k > 0 && Sorted(checkpoints) && Sorted(events)
    ensures Sorted(r)
  {
    var a := Latest(base, checkpoints);
    var tail := After(events, a.bound);
    if Multiple(|tail|, k) then Insert(checkpoints, key, Fold(d, a.state, tail)) else checkpoints
  }

  function EventsAfter<S, E>(d: Domain<S, E>, events: seq<Entry<E>>, e: E): (r: seq<Entry<E>>)
    requires Sorted(events)
    ensures Sorted(r)
  {
    if Has(events, KeyOf(d, e)) then events else Insert(events, KeyOf(d, e), e)
  }

  function CheckpointsAfter<S, E>(
      d: Domain<S, E>, base: S, checkpoints: seq<Entry<S>>, events: seq<Entry<E>>, e: E, k: nat): (r: seq<Entry<S>>)
    requires k > 0 && Sorted(checkpoints) && Sorted(events)
    ensures Sorted(r)
  {
    var key, events' := KeyOf(d, e), EventsAfter(d, events, e);
    if Has(events, key) then checkpoints
    else if IsLatest(events', key) then AppendCheckpoint(d, base, checkpoints, events', key, k)
    else Resume(d, base, Below(checkpoints, key), events', k)
  }

  function ApplyEvent<S, E>(d: Domain<S, E>, h: History<S, E>, e: E): (h': History<S, E>)
    requires WellFormed(h)
    ensures WellFormed(h')
  {
    h.(events := EventsAfter(d, h.events, e),
       rooted := true,
       checkpoints := CheckpointsAfter(d, h.base, h.checkpoints, h.events, e, h.interval))
  }

  function SnapshotKey<S, E>(d: Domain<S, E>, id: nat, s: S): Key {
    Key(d.snapshotTime(s), id)
  }

  /** The checkpoints up to and including an authoritative snapshot put in at `key`. */
  function Overridden<S>(checkpoints: seq<Entry<S>>, key: Key, s: S): (r: seq<Entry<S>>)
    requires Sorted(checkpoints)
    ensures Sorted(r)
  {
    Below(checkpoints, key) + [Entry(key, s)]
  }

  function ApplySnapshot<S, E>(d: Domain<S, E>, h: History<S, E>, s: S): (h': History<S, E>)
    requires WellFormed(h)
    ensures WellFormed(h')
  {
    if d.snapshotId(s) != h.id then h else
      var keep := Overridden(h.checkpoints, SnapshotKey(d, h.id, s), s);
      h.(checkpoints := Resume(d, h.base, keep, h.events, h.interval))
  }

  function DropKey<S, E>(h: History<S, E>, time: int): Key {
    Key(h.now + time - h.horizon, 0)
  }

  function Advance<S, E>(h: History<S, E>, time: int): (h': History<S, E>)
    requires WellFormed(h)
    ensures WellFormed(h')
  {
    var drop := DropKey(h, time);
    h.(base := Latest(h.base, Below(h.checkpoints, drop)).state,
       events := From(h.events, drop),
       rooted := h.events != [],
       checkpoints := From(h.checkpoints, drop),
       now := h.now + time)
  }

  function QueryKey<S, E>(h: History<S, E>, time: int): Key {
    Key(time, h.id)
  }

  /** The events a query replays on top of the checkpoint it starts from. */
  function QueryTail<S, E>(h: History<S, E>, time: int): seq<Entry<E>>
    requires WellFormed(h)
  {
    var key := QueryKey(h, time);
    After(Below(h.events, key), Latest(h.base, UpTo(h.checkpoints, key)).bound)
  }

  function SnapshotAt<S, E>(d: Domain<S, E>, h: History<S, E>, time: int): Answer<S>
    requires WellFormed(h)
  {
    var key := QueryKey(h, time);
    if Has(h.checkpoints, key) && h.rooted then RangePanic else
      var start := Latest(h.base, UpTo(h.checkpoints, key));
      Found(d.setTime(Replay(d, start.state, QueryTail(h, time)), time))
  }

  /** Notifications attempted by `apply_event` and by `apply_snapshot`. */
  function EventNotice<S, E>(d: Domain<S, E>, h: History<S, E>, e: E): seq<Reconciliation> {
    if h.events != [] && d.eventTime(e) < h.events[|h.events| - 1].key.time
    then [Reconciliation(h.id, d.eventTime(e), h.events[|h.events| - 1].key.time)]
    else []
  }

  function SnapshotNotice<S, E>(d: Domain<S, E>, h: History<S, E>, s: S): seq<Reconciliation> {
    if d.snapshotId(s) != h.id then [] else
      var to := if h.events == [] then d.snapshotTime(s) else h.events[|h.events| - 1].key.time;
      [Reconciliation(h.id, d.snapshotTime(s), to)]
  }

  /** Bytes held by stored events and checkpoints; the base is charged once, at creation. */
  function Stored<S, E>(d: Domain<S, E>, events: seq<Entry<E>>, checkpoints: seq<Entry<S>>): nat {
    Bytes(d.eventSize, events) + Bytes(d.snapshotSize, checkpoints)
  }

  function Footprint<S, E>(d: Domain<S, E>, h: History<S, E>): nat {
    Stored(d, h.events, h.checkpoints)
  }

  /**
   * The one case in which the ledger drifts: a new latest event whose key already holds a checkpoint
   * replaces that checkpoint without giving its bytes back.
   */
  predicate Overwrites<S, E>(d: Domain<S, E>, checkpoints: seq<Entry<S>>, events: seq<Entry<E>>, e: E)
    requires Sorted(checkpoints) && Sorted(events)
  {
    var key := KeyOf(d, e);
    !Has(events, key) && IsLatest(EventsAfter(d, events, e), key) && Has(checkpoints, key)
  }

  function OverwrittenBytes<S, E>(d: Domain<S, E>, checkpoints: seq<Entry<S>>, events: seq<Entry<E>>, e: E): nat
    requires Sorted(checkpoints) && Sorted(events)
  {
    if Overwrites(d, checkpoints, events, e)
    then d.snapshotSize(checkpoints[Rank(checkpoints, KeyOf(d, e))].value)
    else 0
  }

  /** The number of `apply_to` calls one `apply_event` makes. */
  function ApplyCost<S, E>(
      d: Domain<S, E>, base: S, checkpoints: seq<Entry<S>>, events: seq<Entry<E>>, e: E, k: nat): nat
    requires k > 0 && Sorted(checkpoints) && Sorted(events)
  {
    var key, events' := KeyOf(d, e), EventsAfter(d, events, e);
    if Has(events, key) then 0
    else if IsLatest(events', key) then
      var tail := After(events', Latest(base, checkpoints).bound);
      if Multiple(|tail|, k) then |tail| else 0
    else |After(events', Latest(base, Below(checkpoints, key)).bound)|
  }
}
