/** What makes two events the same: their time and their id, and nothing else. */
module Identities {
  import opened Keys
  import opened OrderedMaps
  import opened MapFacts
  import opened Domains
  import opened Histories
  import opened Timelines
  import opened Refinement
  import opened Stamps

  predicate SameIdentity<S, E>(d: Domain<S, E>, a: E, b: E) {
    d.eventTime(a) == d.eventTime(b) && d.eventId(a) == d.eventId(b)
  }

  lemma KeyIsIdentity<S, E>(d: Domain<S, E>, a: E, b: E)
    ensures KeyOf(d, a) == KeyOf(d, b) <==> SameIdentity(d, a, b)
  {
  }

  /** A stored event with the identity of `e` is exactly what makes `e` a duplicate. */
  lemma StoredIdentity<S, E>(d: Domain<S, E>, events: seq<Entry<E>>, e: E)
    requires Sorted(events) && Keyed(d, events)
    ensures Has(events, KeyOf(d, e)) <==> exists x :: x in events && SameIdentity(d, x.value, e)
  {
    hide Rank, Keyed, Sorted;
    if Has(events, KeyOf(d, e)) {
      var i :| 0 <= i < |events| && events[i].key == KeyOf(d, e);
      KeyedAt(d, events, i);
      assert events[i] in events;
    }
    if x :| x in events && SameIdentity(d, x.value, e) {
      var i :| 0 <= i < |events| && events[i] == x;
      KeyedAt(d, events, i);
      assert events[i].key == KeyOf(d, e);
    }
  }

  lemma KeyedAt<S, E>(d: Domain<S, E>, events: seq<Entry<E>>, i: nat)
    requires Keyed(d, events) && i < |events|
    ensures events[i].key == KeyOf(d, events[i].value)
  {
    assert events[i] in events;
  }

  /** An event is added under its time and id unless one of the same identity is stored; nothing else changes. */
  lemma EventStoredExact<S, E>(d: Domain<S, E>, h: History<S, E>, e: E)
    requires WellFormed(h) && Keyed(d, h.events)
    ensures var first := !exists y :: y in h.events && SameIdentity(d, y.value, e);
      forall x :: x in ApplyEvent(d, h, e).events <==>
        (x in h.events || (first && x == Entry(Key(d.eventTime(e), d.eventId(e)), e)))
  {
    hide CheckpointsAfter, Insert, Rank, Keyed, SameIdentity, Sorted;
    StoredIdentity(d, h.events, e);
    if !Has(h.events, KeyOf(d, e)) {
      InsertContents(h.events, KeyOf(d, e), e);
      forall x | x in h.events
        ensures x.key != KeyOf(d, e)
      {
        var i :| 0 <= i < |h.events| && h.events[i] == x;
      }
    }
  }

  /** The i-th operation is the first of the run to bring this event. */
  ghost predicate FirstArrival<S, E>(d: Domain<S, E>, ops: seq<Op<S, E>>, i: nat) {
    && i < |ops| && ops[i].EventOp?
    && forall j | 0 <= j < i && ops[j].EventOp? :: !SameIdentity(d, ops[j].event, ops[i].event)
  }

  ghost predicate Arrived<S, E>(d: Domain<S, E>, ops: seq<Op<S, E>>, x: Entry<E>) {
    exists i :: 0 <= i < |ops| && FirstArrival(d, ops, i)
      && x == Entry(Key(d.eventTime(ops[i].event), d.eventId(ops[i].event)), ops[i].event)
  }

  lemma ArrivedSnoc<S, E>(d: Domain<S, E>, ops: seq<Op<S, E>>, x: Entry<E>)
    requires ops != []
    ensures var before, n := ops[..|ops| - 1], |ops| - 1;
      Arrived(d, ops, x) <==>
        (Arrived(d, before, x)
         || (FirstArrival(d, ops, n)
             && x == Entry(Key(d.eventTime(ops[n].event), d.eventId(ops[n].event)), ops[n].event)))
  {
    hide SameIdentity;
    var before, n := ops[..|ops| - 1], |ops| - 1;
    forall i | 0 <= i < n
      ensures FirstArrival(d, before, i) <==> FirstArrival(d, ops, i)
      ensures before[i] == ops[i]
    {
      assert forall j | 0 <= j <= i :: before[j] == ops[j];
    }
    if Arrived(d, before, x) {
      var i :| 0 <= i < n && FirstArrival(d, before, i)
        && x == Entry(Key(d.eventTime(before[i].event), d.eventId(before[i].event)), before[i].event);
      assert FirstArrival(d, ops, i);
    }
  }

  /** Every event that was sent is represented by the first of its identity. */
  lemma {:induction false} EachIsRepresented<S, E>(d: Domain<S, E>, ops: seq<Op<S, E>>, i: nat)
    requires i < |ops| && ops[i].EventOp?
    ensures exists x :: Arrived(d, ops, x) && SameIdentity(d, x.value, ops[i].event)
  {
    if FirstArrival(d, ops, i) {
      var x := Entry(Key(d.eventTime(ops[i].event), d.eventId(ops[i].event)), ops[i].event);
      assert Arrived(d, ops, x) && SameIdentity(d, x.value, ops[i].event);
    } else {
      var j :| 0 <= j < i && ops[j].EventOp? && SameIdentity(d, ops[j].event, ops[i].event);
      EachIsRepresented(d, ops, j);
    }
  }

  /**
   * Deduplication, in full: whatever snapshots come in between, the stored events are exactly the first
   * arrivals of each time and id, under that time and id.
   */
  lemma {:induction false} StoredAreFirstArrivals<S, E>(d: Domain<S, E>, h: History<S, E>, ops: seq<Op<S, E>>)
    requires WellFormed(h) && h.events == [] && forall op | op in ops :: !op.AdvanceOp?
    ensures forall x :: x in RunHistory(d, h, ops).events <==> Arrived(d, ops, x)
  {
    hide ApplyEvent, Keyed, Sorted, Arrived, FirstArrival, SameIdentity;
    if ops == [] {
      NoneArrived(d, ops);
    } else {
      var before, last := ops[..|ops| - 1], ops[|ops| - 1];
      assert last in ops;
      StoredAreFirstArrivals(d, h, before);
      FreshKeyed(d, h);
      RunKeyed(d, h, before);
      var h' := RunHistory(d, h, before);
      if last.EventOp? {
        EventStoredExact(d, h', last.event);
        NewestArrival(d, ops, h'.events);
      } else {
        NotAnArrival(d, ops);
      }
      forall x
        ensures x in RunHistory(d, h, ops).events <==> Arrived(d, ops, x)
      {
        ArrivedSnoc(d, ops, x);
      }
    }
  }

  lemma NoneArrived<S, E>(d: Domain<S, E>, ops: seq<Op<S, E>>)
    requires ops == []
    ensures forall x :: !Arrived(d, ops, x)
  {
  }

  lemma NotAnArrival<S, E>(d: Domain<S, E>, ops: seq<Op<S, E>>)
    requires ops != [] && !ops[|ops| - 1].EventOp?
    ensures !FirstArrival(d, ops, |ops| - 1)
  {
  }

  lemma FreshKeyed<S, E>(d: Domain<S, E>, h: History<S, E>)
    requires h.events == []
    ensures Keyed(d, h.events)
  {
  }

  lemma NewestArrival<S, E>(d: Domain<S, E>, ops: seq<Op<S, E>>, events: seq<Entry<E>>)
    requires ops != [] && ops[|ops| - 1].EventOp?
    requires forall x :: x in events <==> Arrived(d, ops[..|ops| - 1], x)
    ensures FirstArrival(d, ops, |ops| - 1)
       <==> !exists y :: y in events && SameIdentity(d, y.value, ops[|ops| - 1].event)
  {
    hide Arrived;
    var n, before, e := |ops| - 1, ops[..|ops| - 1], ops[|ops| - 1].event;
    if y :| y in events && SameIdentity(d, y.value, e) {
      ArrivedFrom(d, before, y);
      var i :| 0 <= i < n && before[i].EventOp? && before[i].event == y.value;
      assert ops[i] == before[i];
    }
    if !FirstArrival(d, ops, n) {
      var j :| 0 <= j < n && ops[j].EventOp? && SameIdentity(d, ops[j].event, e);
      assert before[j] == ops[j];
      EachIsRepresented(d, before, j);
    }
  }

  lemma ArrivedFrom<S, E>(d: Domain<S, E>, ops: seq<Op<S, E>>, x: Entry<E>)
    requires Arrived(d, ops, x)
    ensures exists i :: 0 <= i < |ops| && ops[i].EventOp? && ops[i].event == x.value
  {
  }

  /** So after any such run every event that was sent has one of its time and id stored. */
  lemma SentIsStored<S, E>(d: Domain<S, E>, h: History<S, E>, ops: seq<Op<S, E>>, i: nat)
    requires WellFormed(h) && h.events == [] && forall op | op in ops :: !op.AdvanceOp?
    requires i < |ops| && ops[i].EventOp?
    ensures exists x :: x in RunHistory(d, h, ops).events && SameIdentity(d, x.value, ops[i].event)
  {
    hide Arrived, RunHistory, SameIdentity, Sorted;
    StoredAreFirstArrivals(d, h, ops);
    EachIsRepresented(d, ops, i);
  }
}
