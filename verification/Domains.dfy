/** Snapshot and event types, kept abstract as a record of the operations the engine calls on them. */
module Domains {
  import opened Keys
  import opened OrderedMaps

  datatype Domain<!S, !E> = Domain(
    snapshotId: S -> nat,
    snapshotTime: S -> int,
    setTime: (S, int) -> S,
    snapshotSize: S -> nat,
    eventId: E -> nat,
    eventTime: E -> int,
    eventSize: E -> nat,
    apply: (E, S) -> S,
    snapshots: E -> seq<S>)

  function KeyOf<S, E>(d: Domain<S, E>, e: E): Key {
    Key(d.eventTime(e), d.eventId(e))
  }

  /**
   * What the engine needs of a user's types: the last `setTime` wins, and applying an event does
   * not look at the snapshot time except to carry it along.
   */
  ghost predicate Lawful<S(!new), E(!new)>(d: Domain<S, E>) {
    && (forall s, a, b :: d.setTime(d.setTime(s, a), b) == d.setTime(s, b))
    && (forall e, s, a, b :: d.setTime(d.apply(e, d.setTime(s, a)), b) == d.setTime(d.apply(e, s), b))
  }

  /** One replay step while checkpoints are built: apply, then stamp the event's time. */
  function Step<S, E>(d: Domain<S, E>, s: S, e: E): S {
    d.setTime(d.apply(e, s), d.eventTime(e))
  }

  function Fold<S, E>(d: Domain<S, E>, s: S, es: seq<Entry<E>>): S {
    if es == [] then s else Step(d, Fold(d, s, es[..|es| - 1]), es[|es| - 1].value)
  }

  /** The replay a query does: apply only, no stamping in between. */
  function Replay<S, E>(d: Domain<S, E>, s: S, es: seq<Entry<E>>): S {
    if es == [] then s else d.apply(es[|es| - 1].value, Replay(d, s, es[..|es| - 1]))
  }

  ghost predicate SameButTime<S, E>(d: Domain<S, E>, s: S, t: S) {
    d.setTime(s, 0) == d.setTime(t, 0)
  }

  lemma {:induction false} FoldConcat<S, E>(d: Domain<S, E>, s: S, a: seq<Entry<E>>, b: seq<Entry<E>>)
    ensures Fold(d, s, a + b) == Fold(d, Fold(d, s, a), b)
  {
    if b == [] {
      assert a + b == a;
    } else {
      FoldConcat(d, s, a, b[..|b| - 1]);
      assert (a + b)[..|a + b| - 1] == a + b[..|b| - 1];
    }
  }

  lemma FoldNothing<S, E>(d: Domain<S, E>, s: S, es: seq<Entry<E>>)
    ensures Fold(d, s, es[..0]) == s
  {
  }

  lemma FoldOneMore<S, E>(d: Domain<S, E>, s: S, es: seq<Entry<E>>, n: nat)
    requires n < |es|
    ensures Fold(d, s, es[..n + 1]) == Step(d, Fold(d, s, es[..n]), es[n].value)
  {
    assert es[..n + 1][..n] == es[..n];
  }

  lemma SameSetTime<S(!new), E(!new)>(d: Domain<S, E>, s: S, t: S, time: int)
    requires Lawful(d) && SameButTime(d, s, t)
    ensures d.setTime(s, time) == d.setTime(t, time)
  {
    assert d.setTime(d.setTime(s, 0), time) == d.setTime(s, time);
    assert d.setTime(d.setTime(t, 0), time) == d.setTime(t, time);
  }

  lemma ApplyRespectsSame<S(!new), E(!new)>(d: Domain<S, E>, e: E, s: S, t: S)
    requires Lawful(d) && SameButTime(d, s, t)
    ensures SameButTime(d, d.apply(e, s), d.apply(e, t))
  {
    assert d.setTime(d.apply(e, d.setTime(s, 0)), 0) == d.setTime(d.apply(e, s), 0);
    assert d.setTime(d.apply(e, d.setTime(t, 0)), 0) == d.setTime(d.apply(e, t), 0);
  }

  /** Stamping while folding, and where the fold is resumed, are invisible after a final `setTime`. */
  lemma {:induction false} ReplayResumes<S(!new), E(!new)>(
      d: Domain<S, E>, s: S, a: seq<Entry<E>>, b: seq<Entry<E>>, time: int)
    requires Lawful(d)
    ensures d.setTime(Replay(d, Fold(d, s, a), b), time) == d.setTime(Replay(d, s, a + b), time)
  {
    FoldIsReplay(d, s, a);
    ReplaySame(d, Fold(d, s, a), Replay(d, s, a), b);
    ReplayConcat(d, s, a, b);
    SameSetTime(d, Replay(d, Fold(d, s, a), b), Replay(d, s, a + b), time);
  }

  lemma {:induction false} FoldIsReplay<S(!new), E(!new)>(d: Domain<S, E>, s: S, es: seq<Entry<E>>)
    requires Lawful(d)
    ensures SameButTime(d, Fold(d, s, es), Replay(d, s, es))
  {
    if es != [] {
      var p, e := es[..|es| - 1], es[|es| - 1].value;
      FoldIsReplay(d, s, p);
      ApplyRespectsSame(d, e, Fold(d, s, p), Replay(d, s, p));
      var x, t: int := d.apply(e, Fold(d, s, p)), d.eventTime(e);
      assert d.setTime(d.setTime(x, t), 0) == d.setTime(x, 0);
    }
  }

  lemma {:induction false} ReplaySame<S(!new), E(!new)>(d: Domain<S, E>, s: S, t: S, es: seq<Entry<E>>)
    requires Lawful(d) && SameButTime(d, s, t)
    ensures SameButTime(d, Replay(d, s, es), Replay(d, t, es))
  {
    if es != [] {
      var p, e := es[..|es| - 1], es[|es| - 1].value;
      ReplaySame(d, s, t, p);
      ApplyRespectsSame(d, e, Replay(d, s, p), Replay(d, t, p));
    }
  }

  lemma ReplayNone<S, E>(d: Domain<S, E>, s: S)
    ensures Replay(d, s, []) == s
  {
  }

  lemma {:induction false} ReplayConcat<S, E>(d: Domain<S, E>, s: S, a: seq<Entry<E>>, b: seq<Entry<E>>)
    ensures Replay(d, s, a + b) == Replay(d, Replay(d, s, a), b)
  {
    if b == [] {
      assert a + b == a;
    } else {
      ReplayConcat(d, s, a, b[..|b| - 1]);
      assert (a + b)[..|a + b| - 1] == a + b[..|b| - 1];
    }
  }
}
