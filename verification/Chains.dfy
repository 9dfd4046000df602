/**
 * The checkpoint map as a function of what it caches: a base snapshot, the authoritative snapshots
 * in force, the stored events and the checkpoint interval.
 */
module Chains {
  import opened Keys
  import opened OrderedMaps
  import opened MapFacts
  import opened Domains
  import opened Multiples
  import opened Checkpoints

  /**
   * The whole checkpoint map: the authoritative snapshots `auths`, and between any two of them the
   * checkpoints rebuilt from the earlier one over the events between them.
   */
  function Chain<S, E>(d: Domain<S, E>, base: S, auths: seq<Entry<S>>, es: seq<Entry<E>>, k: nat): seq<Entry<S>>
    requires k > 0 && Sorted(es)
    decreases |auths|, 1
  {
    var origin := Latest(base, auths);
    Settled(d, base, auths, es, k) + Rebuild(d, origin.state, After(es, origin.bound), k)
  }

  /** The part of the chain that ends with the last authoritative snapshot. */
  function Settled<S, E>(d: Domain<S, E>, base: S, auths: seq<Entry<S>>, es: seq<Entry<E>>, k: nat): seq<Entry<S>>
    requires k > 0 && Sorted(es)
    decreases |auths|, 0
  {
    if auths == [] then [] else
      var a := auths[|auths| - 1];
      Chain(d, base, auths[..|auths| - 1], Below(es, a.key), k) + [a]
  }

  lemma {:induction false} ChainKeys<S, E>(
      d: Domain<S, E>, base: S, auths: seq<Entry<S>>, es: seq<Entry<E>>, k: nat)
    requires k > 0 && Sorted(es) && Sorted(auths)
    ensures Sorted(Chain(d, base, auths, es, k))
    ensures forall c | c in Chain(d, base, auths, es, k) :: Has(es, c.key) || c in auths
    ensures forall a | a in auths :: a in Chain(d, base, auths, es, k)
    decreases |auths|
  {
    hide Rebuild, Rank, Cut, Below, After, Has;
    if auths == [] {
      RebuildKeys(d, base, es, k);
      ChainNoAuths(d, base, es, k);
    } else {
      var n := |auths| - 1;
      var a := auths[n];
      var front, tail := Below(es, a.key), After(es, Excluded(a.key));
      var x, r := Chain(d, base, auths[..n], front, k), Rebuild(d, a.value, tail, k);
      ChainKeys(d, base, auths[..n], front, k);
      RebuildKeys(d, a.value, tail, k);
      forall c | c in x
        ensures Less(c.key, a.key) && (Has(es, c.key) || c in auths)
      {
        if Has(front, c.key) { HasBelow(es, a.key, c.key); }
      }
      forall c | c in r
        ensures Less(a.key, c.key) && Has(es, c.key)
      {
        HasAfter(es, a.key, c.key);
      }
      assert x != [] ==> x[|x| - 1] in x;
      SortedConcat(x, [a]);
      assert r != [] ==> r[0] in r;
      SortedConcat(x + [a], r);
      assert forall b | b in auths :: b == a || b in auths[..n];
    }
  }

  /**
   * The last checkpoint of a chain lies a whole number of intervals after the last authoritative
   * snapshot (or the base), holds the fold of exactly the events in between, and is followed by
   * fewer than `k` events.
   */
  lemma LatestInChain<S, E>(
      d: Domain<S, E>, base: S, auths: seq<Entry<S>>, es: seq<Entry<E>>, k: nat) returns (q: nat)
    requires k > 0 && Sorted(es) && Sorted(auths)
    ensures var latest, origin := Latest(base, Chain(d, base, auths, es, k)), Latest(base, auths);
      && q == Boundary(|After(es, origin.bound)|, k)
      && latest.state == Fold(d, origin.state, After(es, origin.bound)[..q])
      && After(es, latest.bound) == After(es, origin.bound)[q..]
      && |After(es, latest.bound)| < k
      && (q == 0 ==> latest == origin)
  {
    hide Chain, Settled, Rebuild, Fold, Boundary, Rank, Has;
    var origin := Latest(base, auths);
    var tail := After(es, origin.bound);
    var r := Rebuild(d, origin.state, tail, k);
    q := Boundary(|tail|, k);
    RebuildLast(d, origin.state, tail, k);
    ChainParts(d, base, auths, es, k);
    var c, x := Chain(d, base, auths, es, k), Settled(d, base, auths, es, k);
    if q == 0 {
      assert c == x;
      LatestSettled(d, base, auths, es, k);
      FoldNothing(d, origin.state, tail);
    } else {
      assert c[|c| - 1] == r[|r| - 1];
      var n := Cut(es, origin.bound);
      assert tail[q - 1] == es[n + q - 1];
      CutIs(es, Excluded(es[n + q - 1].key), n + q);
    }
  }

  lemma LatestSettled<S, E>(d: Domain<S, E>, base: S, auths: seq<Entry<S>>, es: seq<Entry<E>>, k: nat)
    requires k > 0 && Sorted(es)
    ensures Latest(base, Settled(d, base, auths, es, k)) == Latest(base, auths)
  {
    hide Chain;
  }

  lemma ChainResume<S, E>(
      d: Domain<S, E>, base: S, auths: seq<Entry<S>>, p: seq<Entry<E>>, es: seq<Entry<E>>, k: nat)
    requires k > 0 && Sorted(es) && Sorted(auths) && p <= es
    requires forall a, i | a in auths && |p| <= i < |es| :: Less(a.key, es[i].key)
    ensures Sorted(p)
    ensures var c := Chain(d, base, auths, p, k); var latest := Latest(base, c);
      c + Rebuild(d, latest.state, After(es, latest.bound), k) == Chain(d, base, auths, es, k)
  {
    hide *;
    var tail, tail' := ResumeTail(d, base, auths, p, es, k);
    ChainParts(d, base, auths, p, k);
    ChainParts(d, base, auths, es, k);
    var latest := Latest(base, Chain(d, base, auths, p, k));
    var origin := Latest(base, auths);
    ResumeRebuild(d, origin.state, tail, tail', k);
    SettledPrefix(d, base, auths, p, es, k);
    var x, r := Settled(d, base, auths, p, k), Rebuild(d, origin.state, tail, k);
    var r' := Rebuild(d, latest.state, After(es, latest.bound), k);
    ConcatAssociative(x, r, r');
  }

  lemma ChainParts<S, E>(d: Domain<S, E>, base: S, auths: seq<Entry<S>>, es: seq<Entry<E>>, k: nat)
    requires k > 0 && Sorted(es)
    ensures var origin := Latest(base, auths);
      Chain(d, base, auths, es, k)
      == Settled(d, base, auths, es, k) + Rebuild(d, origin.state, After(es, origin.bound), k)
  {
  }

  lemma ResumeTail<S, E>(
      d: Domain<S, E>, base: S, auths: seq<Entry<S>>, p: seq<Entry<E>>, es: seq<Entry<E>>, k: nat)
      returns (tail: seq<Entry<E>>, tail': seq<Entry<E>>)
    requires k > 0 && Sorted(es) && Sorted(auths) && p <= es
    requires forall a, i | a in auths && |p| <= i < |es| :: Less(a.key, es[i].key)
    ensures Sorted(p)
    ensures var latest, origin := Latest(base, Chain(d, base, auths, p, k)), Latest(base, auths);
      && tail == After(p, origin.bound) <= After(es, origin.bound) == tail'
      && latest.state == Fold(d, origin.state, tail[..Boundary(|tail|, k)])
      && After(es, latest.bound) == tail'[Boundary(|tail|, k)..]
  {
    hide Chain, Settled, Rebuild, Fold, Rank, Has, Boundary;
    var latest, origin := Latest(base, Chain(d, base, auths, p, k)), Latest(base, auths);
    tail, tail' := After(p, origin.bound), After(es, origin.bound);
    assert forall i | |p| <= i < |es| :: Beyond(origin.bound, es[i].key) by {
      if auths != [] { assert auths[|auths| - 1] in auths; }
    }
    CutPrefix(p, es, origin.bound);
    var q := LatestInChain(d, base, auths, p, k);
    LatestBeforeRest(d, base, auths, p, es, k);
    CutPrefix(p, es, latest.bound);
    assert |After(p, latest.bound)| == |tail| - q;
    assert Cut(p, latest.bound) == Cut(p, origin.bound) + q;
  }

  lemma SettledPrefix<S, E>(
      d: Domain<S, E>, base: S, auths: seq<Entry<S>>, p: seq<Entry<E>>, es: seq<Entry<E>>, k: nat)
    requires k > 0 && Sorted(es) && Sorted(auths) && p <= es
    requires forall a, i | a in auths && |p| <= i < |es| :: Less(a.key, es[i].key)
    ensures Sorted(p) && Settled(d, base, auths, p, k) == Settled(d, base, auths, es, k)
  {
    if auths != [] {
      var a := auths[|auths| - 1];
      RankIs(es, a.key, Rank(p, a.key));
      assert Below(es, a.key) == Below(p, a.key);
    }
  }

  /** Checkpoints of a prefix come before the events that follow the prefix. */
  lemma LatestBeforeRest<S, E>(
      d: Domain<S, E>, base: S, auths: seq<Entry<S>>, p: seq<Entry<E>>, es: seq<Entry<E>>, k: nat)
    requires k > 0 && Sorted(es) && Sorted(auths) && p <= es
    requires forall a, i | a in auths && |p| <= i < |es| :: Less(a.key, es[i].key)
    ensures forall i | |p| <= i < |es| :: Beyond(Latest(base, Chain(d, base, auths, p, k)).bound, es[i].key)
  {
    var c := Chain(d, base, auths, p, k);
    ChainKeys(d, base, auths, p, k);
    if c != [] {
      assert c[|c| - 1] in c;
      if Has(p, c[|c| - 1].key) {
        var j :| 0 <= j < |p| && p[j].key == c[|c| - 1].key;
        assert es[j].key == c[|c| - 1].key;
      }
    }
  }

  /** Cutting a chain at a key leaves the chain of what lies below that key. */
  lemma {:induction false} ChainBelow<S, E>(
      d: Domain<S, E>, base: S, auths: seq<Entry<S>>, es: seq<Entry<E>>, k: nat, key: Key)
    requires k > 0 && Sorted(es) && Sorted(auths)
    ensures Sorted(Chain(d, base, auths, es, k))
    ensures Below(Chain(d, base, auths, es, k), key) == Chain(d, base, Below(auths, key), Below(es, key), k)
    decreases |auths|
  {
    ChainKeys(d, base, auths, es, k);
    if auths == [] {
      RebuildBelow(d, base, es, k, key);
      assert Chain(d, base, auths, es, k) == Rebuild(d, base, es, k);
      assert Chain(d, base, auths, Below(es, key), k) == Rebuild(d, base, Below(es, key), k);
    } else {
      var a := auths[|auths| - 1];
      if Less(a.key, key) {
        ChainBelowTail(d, base, auths, es, k, key);
      } else {
        ChainBelow(d, base, auths[..|auths| - 1], Below(es, a.key), k, key);
        ChainBelowSettled(d, base, auths, es, k, key);
      }
    }
  }

  lemma ChainBelowSettled<S, E>(
      d: Domain<S, E>, base: S, auths: seq<Entry<S>>, es: seq<Entry<E>>, k: nat, key: Key)
    requires k > 0 && Sorted(es) && Sorted(auths) && auths != []
    requires var n := |auths| - 1;
      && !Less(auths[n].key, key)
      && var x := Chain(d, base, auths[..n], Below(es, auths[n].key), k);
      && Sorted(x)
      && Below(x, key) == Chain(d, base, Below(auths[..n], key), Below(Below(es, auths[n].key), key), k)
    ensures Sorted(Chain(d, base, auths, es, k))
    ensures Below(Chain(d, base, auths, es, k), key) == Chain(d, base, Below(auths, key), Below(es, key), k)
  {
    hide Rebuild, Fold;
    ChainKeys(d, base, auths, es, k);
    var n, c := |auths| - 1, Chain(d, base, auths, es, k);
    var a := auths[n];
    var front := Below(es, a.key);
    var x := Chain(d, base, auths[..n], front, k);
    assert Settled(d, base, auths, es, k) == x + [a];
    ChainParts(d, base, auths, es, k);
    assert c[..|x|] == x && c[|x|] == a;
    RankBelow(c, key, |x|);
    RankBelow(auths, key, n);
    RankBelow(es, key, |front|);
  }

  lemma ChainBelowTail<S, E>(
      d: Domain<S, E>, base: S, auths: seq<Entry<S>>, es: seq<Entry<E>>, k: nat, key: Key)
    requires k > 0 && Sorted(es) && Sorted(auths) && auths != []
    requires Less(auths[|auths| - 1].key, key)
    ensures Sorted(Chain(d, base, auths, es, k))
    ensures Below(Chain(d, base, auths, es, k), key) == Chain(d, base, Below(auths, key), Below(es, key), k)
  {
    hide Rebuild, Fold;
    ChainKeys(d, base, auths, es, k);
    var n := |auths| - 1;
    var a := auths[n];
    var tail := After(es, Excluded(a.key));
    var x, r := Settled(d, base, auths, es, k), Rebuild(d, a.value, tail, k);
    assert Below(auths, key) == auths;
    RebuildBelow(d, a.value, tail, k, key);
    assert x[|x| - 1] == a;
    BelowConcat(x, r, key);
    BelowAfter(es, Excluded(a.key), key);
    BelowBelow(es, a.key, key);
  }

  /**
   * Pruning a chain at `key`. When no event lies between the last dropped checkpoint and `key`, what
   * is left is the chain of what is left, with the last dropped checkpoint as its base.
   */
  lemma {:induction false} ChainAdvance<S, E>(
      d: Domain<S, E>, base: S, auths: seq<Entry<S>>, es: seq<Entry<E>>, k: nat, key: Key)
    requires k > 0 && Sorted(es) && Sorted(auths) && Sorted(Chain(d, base, auths, es, k))
    requires var dropped := Below(Chain(d, base, auths, es, k), key);
      After(Below(es, key), Latest(base, dropped).bound) == []
    ensures var c := Chain(d, base, auths, es, k);
      From(c, key) == Chain(d, Latest(base, Below(c, key)).state, From(auths, key), From(es, key), k)
    decreases |auths|
  {
    if auths == [] || Less(auths[|auths| - 1].key, key) {
      ChainAdvanceTail(d, base, auths, es, k, key);
    } else {
      hide *;
      var n := |auths| - 1;
      var a, c := auths[n], Chain(d, base, auths, es, k);
      var front, r := Below(es, a.key), Rebuild(d, a.value, After(es, Excluded(a.key)), k);
      var x := Chain(d, base, auths[..n], front, k);
      assert auths == auths[..n] + [a] && Sorted(auths[..n]) by { SortedParts(auths, n); }
      ChainSettled(d, base, auths, es, k);
      ChainKeys(d, base, auths[..n], front, k);
      FromConcat(x, [a] + r, key);
      BelowBelow(es, key, a.key);
      ChainAdvance(d, base, auths[..n], front, k, key);
      FromConcat(auths[..n], [a], key);
      FromThenBelow(es, key, a.key);
      FromThenAfter(es, key, a.key);
      var state := Latest(base, Below(c, key)).state;
      ChainSettled(d, state, From(auths, key), From(es, key), k);
      assert From(auths, key)[..|From(auths, key)| - 1] == From(auths[..n], key);
    }
  }

  lemma ChainSettled<S, E>(d: Domain<S, E>, base: S, auths: seq<Entry<S>>, es: seq<Entry<E>>, k: nat)
    requires k > 0 && Sorted(es) && auths != []
    ensures var n := |auths| - 1; var a := auths[n];
      Chain(d, base, auths, es, k)
      == Chain(d, base, auths[..n], Below(es, a.key), k) + ([a] + Rebuild(d, a.value, After(es, Excluded(a.key)), k))
  {
  }

  lemma ChainAdvanceTail<S, E>(
      d: Domain<S, E>, base: S, auths: seq<Entry<S>>, es: seq<Entry<E>>, k: nat, key: Key)
    requires k > 0 && Sorted(es) && Sorted(auths) && Sorted(Chain(d, base, auths, es, k))
    requires auths != [] ==> Less(auths[|auths| - 1].key, key)
    requires var dropped := Below(Chain(d, base, auths, es, k), key);
      After(Below(es, key), Latest(base, dropped).bound) == []
    ensures var c := Chain(d, base, auths, es, k);
      From(c, key) == Chain(d, Latest(base, Below(c, key)).state, From(auths, key), From(es, key), k)
  {
    hide *;
    var c, kept := Chain(d, base, auths, es, k), From(es, key);
    var origin := Latest(base, auths);
    var tail := After(Below(es, key), origin.bound);
    AllBelow(auths, key);
    ChainBelow(d, base, auths, es, k, key);
    var q := LatestInChain(d, base, auths, Below(es, key), k);
    assert tail[..q] == tail;
    AfterSplit(es, base, auths, key);
    RebuildConcat(d, origin.state, tail, kept, k);
    var state := Latest(base, Below(c, key)).state;
    var x, r := Settled(d, base, auths, es, k), Rebuild(d, origin.state, tail, k);
    ChainParts(d, base, auths, es, k);
    ChainParts(d, base, auths, Below(es, key), k);
    SettledBelow(d, base, auths, es, k, key);
    ConcatAssociative(x, r, Rebuild(d, state, kept, k));
    BelowFrom(c, key);
    CancelPrefix(Below(c, key), From(c, key), Rebuild(d, state, kept, k));
    ChainNoAuths(d, state, kept, k);
  }

  lemma ChainNoAuths<S, E>(d: Domain<S, E>, base: S, es: seq<Entry<E>>, k: nat)
    requires k > 0 && Sorted(es)
    ensures Chain(d, base, [], es, k) == Rebuild(d, base, es, k)
  {
  }

  lemma SettledBelow<S, E>(
      d: Domain<S, E>, base: S, auths: seq<Entry<S>>, es: seq<Entry<E>>, k: nat, key: Key)
    requires k > 0 && Sorted(es) && (auths != [] ==> Less(auths[|auths| - 1].key, key))
    ensures Settled(d, base, auths, Below(es, key), k) == Settled(d, base, auths, es, k)
  {
    hide Chain;
    if auths != [] {
      BelowBelow(es, auths[|auths| - 1].key, key);
    }
  }

  lemma AfterSplit<S, V>(m: seq<Entry<V>>, base: S, auths: seq<Entry<S>>, key: Key)
    requires Sorted(m) && (auths != [] ==> Less(auths[|auths| - 1].key, key))
    ensures var b := Latest(base, auths).bound; After(m, b) == After(Below(m, key), b) + From(m, key)
  {
    var b := Latest(base, auths).bound;
    BelowAfter(m, b, key);
    assert From(After(m, b), key) == From(m, key) by { AfterThenFrom(m, b, key); }
    BelowFrom(After(m, b), key);
  }

  /**
   * The last checkpoint before `key` and the events from it up to `key` give the same state, up to
   * its time stamp, as the last authoritative snapshot before `key` (or the base) and all events
   * from there up to `key`.
   */
  lemma ChainAnswers<S(!new), E(!new)>(
      d: Domain<S, E>, base: S, auths: seq<Entry<S>>, es: seq<Entry<E>>, k: nat, key: Key, time: int)
    requires k > 0 && Sorted(es) && Sorted(auths) && Lawful(d)
    ensures Sorted(Chain(d, base, auths, es, k))
    ensures var latest := Latest(base, Below(Chain(d, base, auths, es, k), key));
      var origin := Latest(base, Below(auths, key));
      && d.setTime(Replay(d, latest.state, After(Below(es, key), latest.bound)), time)
         == d.setTime(Replay(d, origin.state, After(Below(es, key), origin.bound)), time)
  {
    hide *;
    ChainBelow(d, base, auths, es, k, key);
    var q := LatestInChain(d, base, Below(auths, key), Below(es, key), k);
    var origin := Latest(base, Below(auths, key));
    var tail := After(Below(es, key), origin.bound);
    assert tail == tail[..q] + tail[q..];
    ReplayResumes(d, origin.state, tail[..q], tail[q..], time);
  }

  /**
   * Each checkpoint on its own: it is an authoritative snapshot in force, or the replay, from the
   * checkpoint before it (or the base), of exactly the events after that one up to its own key.
   */
  lemma EachCheckpoint<S, E>(
      d: Domain<S, E>, base: S, auths: seq<Entry<S>>, es: seq<Entry<E>>, k: nat, c: nat)
    requires k > 0 && Sorted(es) && Sorted(auths) && c < |Chain(d, base, auths, es, k)|
    ensures var m := Chain(d, base, auths, es, k);
      var prev := Latest(base, m[..c]);
      m[c] in auths || m[c].value == Fold(d, prev.state, After(UpTo(es, m[c].key), prev.bound))
  {
    hide *;
    var m := Chain(d, base, auths, es, k);
    var x := m[c];
    ChainKeys(d, base, auths, es, k);
    if x !in auths {
      NotAuthoritative(m, auths, c);
      var auths', es', es0 := Below(auths, x.key), UpTo(es, x.key), Below(es, x.key);
      ChainCuts(d, base, auths, es, k, c);
      var q := LatestInChain(d, base, auths', es', k);
      var q0 := LatestInChain(d, base, auths', es0, k);
      var origin, prev := Latest(base, auths'), Latest(base, m[..c]);
      var tail, tail0, rest := After(es', origin.bound), After(es0, origin.bound), From(es', x.key);
      UpToEnds(es, x.key);
      LatestOf(base, m, c);
      assert tail[..q] == tail;
      OriginBefore(base, auths, m, x.key, c);
      SplitAfter(es', origin.bound, x.key);
      SplitAfter(es', prev.bound, x.key);
      FoldConcat(d, origin.state, tail0[..q0], tail0[q0..] + rest);
      assert tail == tail0[..q0] + (tail0[q0..] + rest);
    }
  }

  lemma LatestOf<S>(base: S, m: seq<Entry<S>>, c: nat)
    requires c < |m|
    ensures Latest(base, m[..c + 1]) == Anchor(Excluded(m[c].key), m[c].value)
  {
  }

  lemma NotAuthoritative<S>(m: seq<Entry<S>>, auths: seq<Entry<S>>, c: nat)
    requires Sorted(m) && Sorted(auths) && c < |m| && m[c] !in auths && forall a | a in auths :: a in m
    ensures !Has(auths, m[c].key)
  {
    forall i | 0 <= i < |auths|
      ensures auths[i].key != m[c].key
    {
      assert auths[i] in auths;
      var j :| 0 <= j < |m| && m[j] == auths[i];
      assert j != c;
    }
  }

  /** The chain up to an entry, without and with the entry itself. */
  lemma ChainCuts<S, E>(
      d: Domain<S, E>, base: S, auths: seq<Entry<S>>, es: seq<Entry<E>>, k: nat, c: nat)
    requires k > 0 && Sorted(es) && Sorted(auths) && c < |Chain(d, base, auths, es, k)|
    requires !Has(auths, Chain(d, base, auths, es, k)[c].key)
    ensures var m := Chain(d, base, auths, es, k);
      && m[..c] == Chain(d, base, Below(auths, m[c].key), Below(es, m[c].key), k)
      && m[..c + 1] == Chain(d, base, Below(auths, m[c].key), UpTo(es, m[c].key), k)
  {
    hide Chain;
    var m := Chain(d, base, auths, es, k);
    var key := m[c].key;
    var succ := Key(key.time, key.id + 1);
    ChainBelow(d, base, auths, es, k, key);
    ChainBelow(d, base, auths, es, k, succ);
    RankIs(m, key, c);
    RankIs(m, succ, c + 1);
    BelowSuccessor(es, key);
    BelowSuccessor(auths, key);
    UpToIsBelow(auths, key);
  }

  /** No key lies strictly between a key and the one with the next id. */
  lemma BelowSuccessor<V>(m: seq<Entry<V>>, key: Key)
    requires Sorted(m)
    ensures Below(m, Key(key.time, key.id + 1)) == UpTo(m, key)
  {
    RankIs(m, Key(key.time, key.id + 1), Cut(m, Excluded(key)));
  }

  lemma UpToEnds<V>(m: seq<Entry<V>>, key: Key)
    requires Sorted(m)
    ensures After(UpTo(m, key), Excluded(key)) == [] && Below(UpTo(m, key), key) == Below(m, key)
  {
    var p := UpTo(m, key);
    CutIs(p, Excluded(key), |p|);
    RankIs(p, key, Rank(m, key));
  }

  lemma OriginBefore<S>(base: S, auths: seq<Entry<S>>, m: seq<Entry<S>>, key: Key, c: nat)
    requires Sorted(auths) && Sorted(m) && c < |m| && m[c].key == key
    ensures var b := Latest(base, Below(auths, key)).bound; b.Excluded? ==> Less(b.key, key)
    ensures var b := Latest(base, m[..c]).bound; b.Excluded? ==> Less(b.key, key)
  {
  }
}
