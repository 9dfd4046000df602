/** The crate's own test types as one instance. */
module Fixture {
  import opened OrderedMaps
  import opened Domains
  import opened Histories
  import opened Timelines
  import opened Refinement
  import opened EventRuns
  import opened Ledger
  import opened Exactness

  type U16 = n: nat | n < 0x1_0000

  datatype TestSnapshot = TestSnapshot(id: nat, time: int, items: seq<int>, sum: int)

  datatype TestEvent =
    | Positive(snapshotId: nat, time: int, eventId: nat, value: U16)
    | Negative(snapshotId: nat, time: int, eventId: nat, value: U16)

  /** The cast from u16 to i16 wraps around. */
  function AsI16(value: U16): (r: int)
    ensures -0x8000 <= r < 0x8000 && exists wraps :: value == r + wraps * 0x1_0000
  {
    assert value == value + 0 * 0x1_0000 && value == (value - 0x1_0000) + 1 * 0x1_0000;
    if value < 0x8000 then value else value - 0x1_0000
  }

  function ApplyTo(e: TestEvent, s: TestSnapshot): TestSnapshot {
    match e
    case Positive(_, _, _, value) => s.(items := s.items + [AsI16(value)], sum := s.sum + value)
    case Negative(_, _, _, value) => s.(items := s.items + [-AsI16(value)], sum := s.sum - value)
  }

  function FromEvent(e: TestEvent): TestSnapshot {
    TestSnapshot(e.snapshotId, e.time, [], 0)
  }

  const TEST_DOMAIN: Domain<TestSnapshot, TestEvent> := Domain(
    (s: TestSnapshot) => s.id,
    (s: TestSnapshot) => s.time,
    (s: TestSnapshot, time: int) => s.(time := time),
    (s: TestSnapshot) => 16 + 8 + 4 + |s.items| * 2,
    (e: TestEvent) => e.eventId,
    (e: TestEvent) => e.time,
    (e: TestEvent) => 16 + 8 + 16 + 2,
    (e: TestEvent, s: TestSnapshot) => ApplyTo(e, s),
    (e: TestEvent) => [FromEvent(e)])

  /** The fixture meets the laws, and its sizes are never zero. */
  lemma TestDomainLawful()
    ensures Lawful(TEST_DOMAIN)
    ensures Tallied(TEST_DOMAIN, (s: TestSnapshot) => |s.items|) && forall s :: TEST_DOMAIN.snapshotSize(s) > 0
  {
  }

  /** Whichever event of an entity arrives first, the history it opens is the same. */
  lemma FirstEventIrrelevant(e1: TestEvent, e2: TestEvent, now: int, horizon: int, k: nat)
    requires k > 0 && e1.snapshotId == e2.snapshotId
    ensures New<TestSnapshot, TestEvent>(TEST_DOMAIN, FromEvent(e1), now, horizon, k)
         == New<TestSnapshot, TestEvent>(TEST_DOMAIN, FromEvent(e2), now, horizon, k)
  {
  }

  /** Delivery of one entity's events, opened by whichever comes first, in any order and with duplicates. */
  lemma DeliveryOrderIrrelevant(
      now: int, horizon: int, k: nat, xs: seq<Op<TestSnapshot, TestEvent>>, ys: seq<Op<TestSnapshot, TestEvent>>)
    requires k > 0 && OnlyEvents(xs) && KeysDetermine(TEST_DOMAIN, xs) && xs != [] && ys != []
    requires forall op :: op in xs <==> op in ys
    requires forall a, b | a in xs && b in xs && a.EventOp? && b.EventOp? :: a.event.snapshotId == b.event.snapshotId
    ensures ys[0].EventOp?
    ensures var d := TEST_DOMAIN;
      var h1 := New<TestSnapshot, TestEvent>(d, FromEvent(xs[0].event), now, horizon, k);
      var h2 := New<TestSnapshot, TestEvent>(d, FromEvent(ys[0].event), now, horizon, k);
      && RunHistory(d, h1, xs) == RunHistory(d, h2, ys)
      && RunDelta(d, h1, xs) == RunDelta(d, h2, ys)
  {
    hide RunHistory, RunDelta, New, KeysDetermine;
    assert xs[0] in xs && ys[0] in ys;
    var s1, s2 := FromEvent(xs[0].event), FromEvent(ys[0].event);
    assert s1.id == s2.id;
    assert TEST_DOMAIN.setTime(s1, 0) == TEST_DOMAIN.setTime(s2, 0);
    OrderIndependent(TEST_DOMAIN, s1, s2, now, horizon, k, xs, ys);
  }

  /** What an event is worth. */
  function Worth(e: TestEvent): int {
    if e.Positive? then e.value else 0 - e.value
  }

  function TotalWorth(es: seq<Entry<TestEvent>>): int {
    if es == [] then 0 else TotalWorth(es[..|es| - 1]) + Worth(es[|es| - 1].value)
  }

  /** A replay adds up what the events are worth, and keeps one item for each. */
  lemma {:induction false} ReplayAddsUp(s: TestSnapshot, es: seq<Entry<TestEvent>>)
    ensures var r := Replay(TEST_DOMAIN, s, es);
      r.id == s.id && r.time == s.time && r.sum == s.sum + TotalWorth(es) && |r.items| == |s.items| + |es|
  {
    if es != [] {
      ReplayAddsUp(s, es[..|es| - 1]);
    }
  }
}
