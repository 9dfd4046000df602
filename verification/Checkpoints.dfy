/** The checkpoints that a replay leaves behind. */
module Checkpoints {
  import opened Keys
  import opened OrderedMaps
  import opened MapFacts
  import opened Domains
  import opened Multiples

  /** A state to replay from, and the bound after which replay starts. */
  datatype Anchor<S> = Anchor(bound: Bound, state: S)

  /** The last entry of `m`, or the base when `m` is empty. */
  function Latest<S>(base: S, m: seq<Entry<S>>): Anchor<S> {
    if m == [] then Anchor(Unbounded, base) else Anchor(Excluded(m[|m| - 1].key), m[|m| - 1].value)
  }

  /** The checkpoints a replay of `es` from `s` leaves behind, one after every `k` events. */
  function Rebuild<S, E>(d: Domain<S, E>, s: S, es: seq<Entry<E>>, k: nat): seq<Entry<S>>
    requires k > 0
  {
    if es == [] then [] else
      var before := Rebuild(d, s, es[..|es| - 1], k);
      if Multiple(|es|, k) then before + [Entry(es[|es| - 1].key, Fold(d, s, es))] else before
  }

  /** Rebuilding can be resumed at any boundary. */
  lemma {:induction false} RebuildConcat<S, E>(
      d: Domain<S, E>, s: S, a: seq<Entry<E>>, b: seq<Entry<E>>, k: nat)
    requires k > 0 && Multiple(|a|, k)
    ensures Rebuild(d, s, a + b, k) == Rebuild(d, s, a, k) + Rebuild(d, Fold(d, s, a), b, k)
  {
    if b == [] {
      assert a + b == a;
    } else {
      var b', n := b[..|b| - 1], |a + b|;
      RebuildConcat(d, s, a, b', k);
      assert (a + b)[..n - 1] == a + b';
      assert (a + b)[n - 1] == b[|b| - 1];
      MultipleAdd(|a|, |b|, k);
      FoldConcat(d, s, a, b);
    }
  }

  /** The last rebuilt checkpoint sits at the last boundary. */
  lemma {:induction false} RebuildLast<S, E>(d: Domain<S, E>, s: S, es: seq<Entry<E>>, k: nat)
    requires k > 0
    ensures var q := Boundary(|es|, k);
      && Rebuild(d, s, es, k) == Rebuild(d, s, es[..q], k)
      && (q == 0 ==> Rebuild(d, s, es, k) == [])
      && (q > 0 ==>
          var r := Rebuild(d, s, es, k);
          r != [] && r[|r| - 1] == Entry(es[q - 1].key, Fold(d, s, es[..q])))
  {
    hide Boundary, Fold;
    var n := |es|;
    var q := Boundary(n, k);
    BoundarySucc(n, k);
    if q == n {
      assert es[..q] == es;
    } else {
      BoundarySucc(n - 1, k);
      var p := es[..n - 1];
      RebuildLast(d, s, p, k);
      assert p[..q] == es[..q];
    }
  }

  /** Checkpoints are keyed by events of the replayed stretch, in order. */
  lemma {:induction false} RebuildKeys<S, E>(d: Domain<S, E>, s: S, es: seq<Entry<E>>, k: nat)
    requires k > 0 && Sorted(es)
    ensures Sorted(Rebuild(d, s, es, k))
    ensures forall c | c in Rebuild(d, s, es, k) ::
      es != [] && !Less(c.key, es[0].key) && !Less(es[|es| - 1].key, c.key) && Has(es, c.key)
  {
    if es != [] {
      var p, last := es[..|es| - 1], es[|es| - 1];
      RebuildKeys(d, s, p, k);
      var r := Rebuild(d, s, p, k);
      forall c | c in r
        ensures Has(es, c.key) && !Less(c.key, es[0].key) && Less(c.key, last.key)
      {
        var i :| 0 <= i < |p| && p[i].key == c.key;
        assert es[i].key == c.key;
      }
      forall i | 0 <= i < |r|
        ensures Less(r[i].key, last.key)
      {
        assert r[i] in r;
      }
    }
  }

  /** Cutting the checkpoints at a key leaves the checkpoints of the events cut at that key. */
  lemma {:induction false} RebuildBelow<S, E>(d: Domain<S, E>, s: S, es: seq<Entry<E>>, k: nat, key: Key)
    requires k > 0 && Sorted(es)
    ensures Sorted(Rebuild(d, s, es, k))
    ensures Below(Rebuild(d, s, es, k), key) == Rebuild(d, s, Below(es, key), k)
  {
    RebuildKeys(d, s, es, k);
    var r := Rebuild(d, s, es, k);
    if es != [] {
      var p, last := es[..|es| - 1], es[|es| - 1];
      if Less(last.key, key) {
        assert Below(es, key) == es;
        forall i | 0 <= i < |r|
          ensures Less(r[i].key, key)
        {
          assert r[i] in r;
        }
        RankIs(r, key, |r|);
      } else {
        RebuildBelow(d, s, p, k, key);
        RankIs(p, key, Rank(es, key));
        assert Below(es, key) == Below(p, key);
        RankIs(r, key, Rank(Rebuild(d, s, p, k), key));
      }
    }
  }

  /** Replaying from the last checkpoint extends the checkpoints of a prefix to those of all events. */
  lemma ResumeRebuild<S, E>(d: Domain<S, E>, s: S, p: seq<Entry<E>>, es: seq<Entry<E>>, k: nat)
    requires k > 0 && p <= es
    ensures var q := Boundary(|p|, k);
      Rebuild(d, s, p, k) + Rebuild(d, Fold(d, s, p[..q]), es[q..], k) == Rebuild(d, s, es, k)
  {
    hide Rebuild, Fold, Boundary, Multiple;
    var q := Boundary(|p|, k);
    var head, rest := p[..q], es[q..];
    assert Rebuild(d, s, p, k) == Rebuild(d, s, head, k) by { RebuildLast(d, s, p, k); }
    assert es == head + rest;
    RebuildConcat(d, s, head, rest, k);
  }

  lemma BoundBelow<S>(base: S, m: seq<Entry<S>>, drop: Key)
    requires Sorted(m)
    ensures var b := Latest(base, Below(m, drop)).bound; b.Excluded? ==> Less(b.key, drop)
  {
  }
}
