/** Pruning is invisible to queries at or after every drop time so far. */
module Transparency {
  import opened Keys
  import opened OrderedMaps
  import opened MapFacts
  import opened Domains
  import opened Checkpoints
  import opened Chains
  import opened Histories
  import opened Timelines
  import opened Refinement
  import opened Ledger
  import opened Queries
  import opened Spacing
  import opened Pruning

  /** How far pruning has reached. */
  datatype Floor = NoFloor | At(key: Key)

  predicate AtOrAbove(floor: Floor, key: Key) {
    floor.NoFloor? || !Less(key, floor.key)
  }

  function Raise(floor: Floor, drop: Key): Floor {
    if floor.NoFloor? || Less(floor.key, drop) then At(drop) else floor
  }

  /** `t` is what is left of `full` when everything below the floor is folded into the base. */
  ghost predicate Pruned<S, E>(d: Domain<S, E>, full: Timeline<S, E>, t: Timeline<S, E>, floor: Floor) {
    && Ordered(full) && Ordered(t) && t.id == full.id
    && match floor
       case NoFloor => t.base == full.base && t.auths == full.auths && t.events == full.events
       case At(key) =>
         t.base == StateBefore(d, full, key) && t.auths == From(full.auths, key) && t.events == From(full.events, key)
  }

  lemma RecordPruned<S, E>(d: Domain<S, E>, full: Timeline<S, E>, t: Timeline<S, E>, floor: Floor, e: E)
    requires Pruned(d, full, t, floor) && AtOrAbove(floor, KeyOf(d, e))
    ensures Pruned(d, Record(d, full, e), Record(d, t, e), floor)
  {
    hide Rank, Cut, Fold, Insert, Has, IsLatest, StateBefore;
    var key := KeyOf(d, e);
    if floor.At? {
      InsertAbove(full.events, floor.key, key, e);
      if !Has(full.events, key) {
        LatestMeansEnd(full.events, key, e);
        LatestMeansEnd(t.events, key, e);
        FromFrom(full.events, floor.key, key);
        BelowBelow(full.auths, floor.key, key);
        FromThenBelow(full.auths, floor.key, key);
      }
      StateBeforeSame(d, full, Record(d, full, e), floor.key);
    }
  }

  lemma StateBeforeSame<S, E>(d: Domain<S, E>, t: Timeline<S, E>, t': Timeline<S, E>, key: Key)
    requires Ordered(t) && Ordered(t') && t.base == t'.base
    requires Below(t.auths, key) == Below(t'.auths, key) && Below(t.events, key) == Below(t'.events, key)
    ensures StateBefore(d, t, key) == StateBefore(d, t', key)
  {
  }

  lemma OverridePruned<S, E>(d: Domain<S, E>, full: Timeline<S, E>, t: Timeline<S, E>, floor: Floor, s: S)
    requires Pruned(d, full, t, floor) && AtOrAbove(floor, SnapshotKey(d, full.id, s))
    ensures Pruned(d, Override(d, full, s), Override(d, t, s), floor)
  {
    hide Rank, Cut, Fold;
    var key := SnapshotKey(d, full.id, s);
    if floor.At? && d.snapshotId(s) == full.id {
      var low := Below(full.auths, key);
      FromConcat(low, [Entry(key, s)], floor.key);
      BelowBelow(full.auths, floor.key, key);
      FromThenBelow(full.auths, floor.key, key);
    }
  }

  lemma PrunePruned<S, E>(d: Domain<S, E>, full: Timeline<S, E>, t: Timeline<S, E>, floor: Floor, time: int)
    requires Pruned(d, full, t, floor)
    ensures Pruned(d, full, Prune(d, t, time), Raise(floor, DropKeyOf(t, time)))
  {
    hide Rank, Cut, Fold;
    var drop := DropKeyOf(t, time);
    if floor.At? {
      if Less(floor.key, drop) {
        FromFrom(full.events, floor.key, drop);
        FromFrom(full.auths, floor.key, drop);
        StateBeforeLater(d, full, t, floor.key, drop);
      } else {
        FromTwice(full.events, drop, floor.key);
        FromTwice(full.auths, drop, floor.key);
        NothingBefore(d, t, drop);
      }
    } else {
      SameStateBefore(d, full, t, drop);
    }
  }

  lemma SameStateBefore<S, E>(d: Domain<S, E>, full: Timeline<S, E>, t: Timeline<S, E>, drop: Key)
    requires Ordered(full) && t.base == full.base && t.auths == full.auths && t.events == full.events
    ensures StateBefore(d, t, drop) == StateBefore(d, full, drop)
  {
  }

  lemma NothingBefore<S, E>(d: Domain<S, E>, t: Timeline<S, E>, drop: Key)
    requires Ordered(t) && Below(t.events, drop) == [] && Below(t.auths, drop) == []
    ensures StateBefore(d, t, drop) == t.base
  {
  }

  lemma StateBeforeLater<S, E>(d: Domain<S, E>, full: Timeline<S, E>, t: Timeline<S, E>, floor: Key, drop: Key)
    requires Pruned(d, full, t, At(floor)) && Less(floor, drop)
    ensures StateBefore(d, t, drop) == StateBefore(d, full, drop)
  {
    hide Rank, Cut, Fold;
    FromThenBelow(full.auths, floor, drop);
    FromThenBelow(full.events, floor, drop);
    BelowBelow(full.auths, floor, drop);
    BelowBelow(full.events, floor, drop);
    var cut, events := Below(full.auths, drop), Below(full.events, drop);
    BelowFrom(cut, floor);
    var kept := From(cut, floor);
    if kept != [] {
      FromLast(cut, floor);
      FromThenAfter(events, floor, kept[|kept| - 1].key);
      assert cut[|cut| - 1] == kept[|kept| - 1];
    } else {
      assert cut == Below(full.auths, floor);
      var origin := Latest(full.base, cut);
      BoundBelow(full.base, full.auths, floor);
      SplitAfter(events, origin.bound, floor);
      AfterAll(From(events, floor));
      FoldConcat(d, origin.state, After(Below(events, floor), origin.bound), From(events, floor));
    }
  }

  /** A query at or above the floor cannot tell the pruned timeline from the full one. */
  lemma PrunedAnswer<S(!new), E(!new)>(
      d: Domain<S, E>, full: Timeline<S, E>, t: Timeline<S, E>, floor: Floor, time: int)
    requires Pruned(d, full, t, floor) && Lawful(d) && AtOrAbove(floor, Key(time, t.id))
    ensures StateAt(d, t, time) == StateAt(d, full, time)
  {
    hide Rank, Cut, Fold, Replay, Lawful;
    if floor.At? {
      var f, key := floor.key, Key(time, t.id);
      UpToFrom(full.auths, f, key);
      FromThenBelow(full.events, f, key);
      BelowBelow(full.events, f, key);
      var cut, events := UpTo(full.auths, key), Below(full.events, key);
      var kept := UpTo(t.auths, key);
      if kept != [] {
        FromAtLeast(full.auths, f, key);
        FromThenAfter(events, f, kept[|kept| - 1].key);
        assert cut[|cut| - 1] == kept[|kept| - 1];
      } else {
        assert cut == Below(full.auths, f);
        var origin := Latest(full.base, cut);
        BoundBelow(full.base, full.auths, f);
        SplitAfter(events, origin.bound, f);
        AfterAll(From(events, f));
        ReplayResumes(d, origin.state, After(Below(events, f), origin.bound), From(events, f), time);
      }
    }
  }

  /** An operation that does not act below the floor. */
  predicate Recent<S, E>(d: Domain<S, E>, t: Timeline<S, E>, floor: Floor, op: Op<S, E>) {
    match op
    case EventOp(e) => AtOrAbove(floor, KeyOf(d, e))
    case SnapshotOp(s) => AtOrAbove(floor, SnapshotKey(d, t.id, s))
    case AdvanceOp(_) => true
  }

  /** The floor after a run. */
  function FloorAfter<S, E>(d: Domain<S, E>, t: Timeline<S, E>, ops: seq<Op<S, E>>): Floor
    requires Ordered(t)
  {
    if ops == [] then NoFloor else
      var before, last := ops[..|ops| - 1], ops[|ops| - 1];
      var floor := FloorAfter(d, t, before);
      if last.AdvanceOp? then Raise(floor, DropKeyOf(Run(d, t, before), last.time)) else floor
  }

  /** No event or snapshot of the run is older than what was pruned before it arrived. */
  predicate NeverTooOld<S, E>(d: Domain<S, E>, t: Timeline<S, E>, ops: seq<Op<S, E>>)
    requires Ordered(t)
  {
    ops == [] ||
    (var before, last := ops[..|ops| - 1], ops[|ops| - 1];
     NeverTooOld(d, t, before) && Recent(d, Run(d, t, before), FloorAfter(d, t, before), last))
  }

  /** The same run with every advance left out. */
  function Unpruned<S, E>(ops: seq<Op<S, E>>): seq<Op<S, E>> {
    if ops == [] then [] else
      var before, last := Unpruned(ops[..|ops| - 1]), ops[|ops| - 1];
      if last.AdvanceOp? then before else before + [last]
  }

  lemma {:induction false} RunPruned<S, E>(d: Domain<S, E>, t: Timeline<S, E>, ops: seq<Op<S, E>>)
    requires Ordered(t) && NeverTooOld(d, t, ops)
    ensures Pruned(d, Run(d, t, Unpruned(ops)), Run(d, t, ops), FloorAfter(d, t, ops))
  {
    hide Pruned, Record, Override, Prune, Sorted, AtOrAbove, Raise;
    if ops == [] {
      PrunedByNothing(d, t);
    } else {
      var before, last := ops[..|ops| - 1], ops[|ops| - 1];
      RunPruned(d, t, before);
      var full, t', floor := Run(d, t, Unpruned(before)), Run(d, t, before), FloorAfter(d, t, before);
      PrunedIds(d, full, t', floor);
      match last
      case EventOp(e) =>
        RecordPruned(d, full, t', floor, e);
        assert Unpruned(ops)[..|Unpruned(ops)| - 1] == Unpruned(before);
      case SnapshotOp(s) =>
        OverridePruned(d, full, t', floor, s);
        assert Unpruned(ops)[..|Unpruned(ops)| - 1] == Unpruned(before);
      case AdvanceOp(time) => PrunePruned(d, full, t', floor, time);
    }
  }

  lemma PrunedByNothing<S, E>(d: Domain<S, E>, t: Timeline<S, E>)
    requires Ordered(t)
    ensures Pruned(d, t, t, NoFloor)
  {
  }

  lemma PrunedIds<S, E>(d: Domain<S, E>, full: Timeline<S, E>, t: Timeline<S, E>, floor: Floor)
    requires Pruned(d, full, t, floor)
    ensures t.id == full.id
  {
  }

  /**
   * Transparent pruning: over every safe run of events, snapshots and advances in which nothing
   * arrives that is older than what was already dropped, a query at or above every drop key so far
   * answers as if nothing had ever been pruned.
   */
  lemma PruningTransparent<S(!new), E(!new)>(
      d: Domain<S, E>, h: History<S, E>, t: Timeline<S, E>, ops: seq<Op<S, E>>, time: int)
    requires Represents(d, h, t) && SafeRun(d, h, ops) && NeverTooOld(d, t, ops) && Lawful(d)
    requires AtOrAbove(FloorAfter(d, t, ops), QueryKey(h, time))
    ensures var h' := RunHistory(d, h, ops);
      SnapshotAt(d, h', time)
      == if Has(h'.checkpoints, QueryKey(h, time)) && h'.rooted then RangePanic
         else Found(StateAt(d, Run(d, t, Unpruned(ops)), time))
  {
    hide Pruned, Lawful, SnapshotAt, StateAt, Sorted, Chain, SafeRun, NeverTooOld, AtOrAbove;
    RunRefines(d, h, t, ops);
    RunKeepsInterval(d, h, ops);
    RunPruned(d, t, ops);
    QueryRefines(d, RunHistory(d, h, ops), Run(d, t, ops), time);
    PrunedAnswer(d, Run(d, t, Unpruned(ops)), Run(d, t, ops), FloorAfter(d, t, ops), time);
  }

  /** At interval 1 every run of events and advances is safe. */
  lemma {:induction false} UnitIntervalSafe<S, E>(
      d: Domain<S, E>, s: S, now: int, horizon: int, ops: seq<Op<S, E>>)
    requires forall op | op in ops :: !op.SnapshotOp?
    ensures SafeRun(d, New<S, E>(d, s, now, horizon, 1), ops)
  {
    hide New, RunHistory, Sorted, GapEvents, CheckpointsOnEvents, EventsAfter, IsLatest, Has;
    if ops != [] {
      var h0, before, last := New<S, E>(d, s, now, horizon, 1), ops[..|ops| - 1], ops[|ops| - 1];
      assert last in ops;
      UnitIntervalSafe(d, s, now, horizon, before);
      FreshOnEvents<S, E>(d, s, now, horizon, 1);
      NoSnapshotsNoOverwrites(d, h0, before);
      match last
      case EventOp(e) => OnEventsSafe(d, RunHistory(d, h0, before), e);
      case AdvanceOp(time) => GapIsShort(d, s, now, horizon, 1, before, time);
    }
  }

  lemma FreshOnEvents<S, E>(d: Domain<S, E>, s: S, now: int, horizon: int, k: nat)
    requires k > 0
    ensures CheckpointsOnEvents(New<S, E>(d, s, now, horizon, k))
  {
  }

  /** With every checkpoint on an event none lies beyond the latest event. */
  lemma OnEventsSafe<S, E>(d: Domain<S, E>, h: History<S, E>, e: E)
    requires CheckpointsOnEvents(h)
    ensures WellFormed(h) && Safe(d, h, EventOp(e))
  {
    hide Rank, Cut, Insert, IsLatest, From, After, Has, Sorted;
    var key, later := KeyOf(d, e), After(h.checkpoints, Excluded(KeyOf(d, e)));
    if !Has(h.events, key) {
      LatestMeansEnd(h.events, key, e);
      if From(h.events, key) == [] && later != [] {
        AfterMember(h.checkpoints, key);
        NoneAbove(h.events, key, later[0].key);
      }
    }
  }

  /**
   * At interval 1, without authoritative snapshots, nothing else is needed: a query at or above every
   * drop key so far is the naive fold of all events ever sent, and panics exactly when an event is stored
   * at its bound.
   */
  lemma UnitIntervalTransparent<S(!new), E(!new)>(
      d: Domain<S, E>, s: S, now: int, horizon: int, ops: seq<Op<S, E>>, time: int)
    requires (forall op | op in ops :: !op.SnapshotOp?) && Lawful(d)
    requires var t := Start<S, E>(d, s, now, horizon);
      NeverTooOld(d, t, ops) && AtOrAbove(FloorAfter(d, t, ops), Key(time, t.id))
    ensures var h' := RunHistory(d, New<S, E>(d, s, now, horizon, 1), ops);
      var t' := Run(d, Start<S, E>(d, s, now, horizon), Unpruned(ops));
      SnapshotAt(d, h', time)
      == if Has(h'.events, Key(time, d.snapshotId(s))) then RangePanic else Found(StateAt(d, t', time))
  {
    hide New, RunHistory, Sorted, SafeRun, Lawful, NeverTooOld, AtOrAbove, FloorAfter, Unpruned, StateAt, SnapshotAt;
    hide Represents, CheckpointsOnEvents, Has, Spaced;
    var h0, t := New<S, E>(d, s, now, horizon, 1), Start<S, E>(d, s, now, horizon);
    NewIsFresh<S, E>(d, s, now, horizon, 1);
    UnitIntervalSafe(d, s, now, horizon, ops);
    PruningTransparent(d, h0, t, ops, time);
    RunKeepsInterval(d, h0, ops);
    FreshOnEvents<S, E>(d, s, now, horizon, 1);
    NoSnapshotsNoOverwrites(d, h0, ops);
    RunSpaced(d, h0, ops);
    OnEventsExactly(RunHistory(d, h0, ops), Key(time, h0.id));
  }

  lemma NewIsFresh<S, E>(d: Domain<S, E>, s: S, now: int, horizon: int, k: nat)
    requires k > 0
    ensures var h := New<S, E>(d, s, now, horizon, k);
      h.interval == k && h.id == d.snapshotId(s) && Spaced(h.events, h.checkpoints, k)
      && Represents(d, h, Start<S, E>(d, s, now, horizon))
  {
  }

  /** With interval 1 the checkpoints sit exactly on the events. */
  lemma OnEventsExactly<S, E>(h: History<S, E>, key: Key)
    requires CheckpointsOnEvents(h) && h.interval == 1 && Spaced(h.events, h.checkpoints, 1)
    ensures WellFormed(h) && (Has(h.checkpoints, key) && h.rooted <==> Has(h.events, key))
  {
    hide Rank;
    if Has(h.checkpoints, key) {
      var i :| 0 <= i < |h.checkpoints| && h.checkpoints[i].key == key;
      assert h.checkpoints[i] in h.checkpoints;
    }
    if Has(h.events, key) {
      var i :| 0 <= i < |h.events| && h.events[i].key == key;
      assert Covered(h.checkpoints, h.events[i].key, h.events[i].key);
    }
  }
}
