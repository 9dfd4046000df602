/** When an authoritative snapshot and an event may arrive in either order. */
module Commutation {
  import opened Keys
  import opened OrderedMaps
  import opened MapFacts
  import opened Domains
  import opened Multiples
  import opened Checkpoints
  import opened Chains
  import opened Histories
  import opened Timelines
  import opened Refinement
  import opened Ledger
  import opened Spacing
  import opened EventRuns
  import opened Reconciliations
  import opened Overrides

  /** A rebuilt checkpoint sits at a boundary. */
  lemma {:induction false} RebuiltAt<S, E>(d: Domain<S, E>, s: S, es: seq<Entry<E>>, k: nat, c: Entry<S>)
      returns (n: nat)
    requires k > 0 && c in Rebuild(d, s, es, k)
    ensures 0 < n <= |es| && Multiple(n, k) && c == Entry(es[n - 1].key, Fold(d, s, es[..n]))
  {
    hide Multiple, Fold;
    var p := es[..|es| - 1];
    if c in Rebuild(d, s, p, k) {
      n := RebuiltAt(d, s, p, k, c);
      assert p[..n] == es[..n];
    } else {
      n := |es|;
      assert es[..n] == es;
    }
  }

  /** What follows a rebuilt checkpoint is what a replay from it leaves. */
  lemma RebuildFromMember<S, E>(d: Domain<S, E>, s: S, es: seq<Entry<E>>, k: nat, c: Entry<S>)
      returns (low: seq<Entry<S>>)
    requires k > 0 && Sorted(es) && c in Rebuild(d, s, es, k)
    ensures Rebuild(d, s, es, k) == low + ([c] + Rebuild(d, c.value, After(es, Excluded(c.key)), k))
  {
    hide Rebuild, Multiple, Fold, Cut;
    var n := RebuiltAt(d, s, es, k, c);
    var head, rest := es[..n], es[n..];
    assert es == head + rest;
    RebuildConcat(d, s, head, rest, k);
    RebuildLast(d, s, head, k);
    BoundarySucc(n, k);
    assert head[..n] == head;
    var r := Rebuild(d, s, head, k);
    low := r[..|r| - 1];
    assert r == low + [c];
    ConcatAssociative(low, [c], Rebuild(d, c.value, rest, k));
    CutIs(es, Excluded(c.key), n) by {
      assert forall i | 0 <= i < n - 1 :: Less(es[i].key, es[n - 1].key);
      assert forall i | n <= i < |es| :: Less(es[n - 1].key, es[i].key);
    }
  }

  /** Where a replay of `es` from `s` leaves this very checkpoint: at a boundary event that folds to it. */
  ghost predicate Lands<S, E>(d: Domain<S, E>, s: S, es: seq<Entry<E>>, k: nat, c: Entry<S>)
    requires k > 0 && Sorted(es)
  {
    Has(es, c.key) && var n := Rank(es, c.key) + 1; n % k == 0 && Fold(d, s, es[..n]) == c.value
  }

  lemma RebuiltIsLanding<S, E>(d: Domain<S, E>, s: S, es: seq<Entry<E>>, k: nat, c: Entry<S>)
    requires k > 0 && Sorted(es)
    ensures c in Rebuild(d, s, es, k) <==> Lands(d, s, es, k, c)
  {
    hide Rebuild, Multiple, Fold, Rank, Sorted;
    if c in Rebuild(d, s, es, k) {
      var n := RebuiltAt(d, s, es, k, c);
      RankAt(es, n - 1);
      MultipleIsMod(n, k);
    } else if Lands(d, s, es, k, c) {
      RebuildHolds(d, s, es, k, Rank(es, c.key) + 1);
    }
  }

  /** A boundary carries the checkpoint of the fold up to it. */
  lemma {:induction false} RebuildHolds<S, E>(d: Domain<S, E>, s: S, es: seq<Entry<E>>, k: nat, n: nat)
    requires k > 0 && 0 < n <= |es| && n % k == 0
    ensures Entry(es[n - 1].key, Fold(d, s, es[..n])) in Rebuild(d, s, es, k)
  {
    hide Fold, Multiple;
    MultipleIsMod(n, k);
    if n == |es| {
      assert es[..n] == es;
    } else {
      var p := es[..|es| - 1];
      RebuildHolds(d, s, p, k, n);
      assert p[..n] == es[..n];
    }
  }

  /** Installing a snapshot over rebuilt checkpoints changes nothing exactly when it is one of them already. */
  lemma InstalledAlready<S, E>(
      d: Domain<S, E>, base: S, keep: seq<Entry<S>>, events: seq<Entry<E>>, k: nat, c: Entry<S>)
    requires k > 0 && Sorted(keep) && Sorted(events) && (keep != [] ==> Less(keep[|keep| - 1].key, c.key))
    ensures var m := Resume(d, base, keep, events, k);
      Resume(d, base, Overridden(m, c.key, c.value), events, k) == m <==> c in m
  {
    hide Rebuild, Sorted, Below;
    var m := Resume(d, base, keep, events, k);
    var m' := Resume(d, base, Overridden(m, c.key, c.value), events, k);
    var over := Below(m, c.key) + [c];
    assert m' == over + Rebuild(d, c.value, After(events, Excluded(c.key)), k);
    assert c == m'[|over| - 1];
    if c in m {
      NotBelow(keep, c);
      var a := Latest(base, keep);
      var tail := After(events, a.bound);
      var low := RebuildFromMember(d, a.state, tail, k, c);
      assert After(tail, Excluded(c.key)) == After(events, Excluded(c.key)) by {
        if keep != [] { AfterAfter(events, a.bound.key, c.key); } else { AfterAll(events); }
      }
      var high := Rebuild(d, c.value, After(events, Excluded(c.key)), k);
      ConcatAssociative(keep, low, [c] + high);
      assert m == (keep + low) + ([c] + high);
      SplitAtEntry(keep + low, c, high);
      ConcatAssociative(keep + low, [c], high);
    }
  }

  /** A late event at or before the snapshot: it removes a snapshot that was there first. */
  lemma LateEventCommutes<S, E>(d: Domain<S, E>, h: History<S, E>, s: S, e: E)
    requires WellFormed(h) && d.snapshotId(s) == h.id && !Has(h.events, KeyOf(d, e))
    requires From(h.events, KeyOf(d, e)) != [] && !Less(SnapshotKey(d, h.id, s), KeyOf(d, e))
    ensures var sk, m := SnapshotKey(d, h.id, s), ApplyEvent(d, h, e).checkpoints;
      && ApplyEvent(d, ApplySnapshot(d, h, s), e).checkpoints == m
      && (ApplySnapshot(d, ApplyEvent(d, h, e), s).checkpoints == m <==> Entry(sk, s) in m)
  {
    hide Rank, Cut, Insert, Rebuild, Sorted, Has, IsLatest, Overridden;
    var sk, ek := SnapshotKey(d, h.id, s), KeyOf(d, e);
    var events, keep := Insert(h.events, ek, e), Below(h.checkpoints, ek);
    LatestMeansEnd(h.events, ek, e);
    BelowOverridden(d, h, s, ek);
    BelowLess(h.checkpoints, ek);
    assert keep != [] ==> keep[|keep| - 1] in keep;
    InstalledAlready(d, h.base, keep, events, h.interval, Entry(sk, s));
  }

  lemma BelowOverridden<S, E>(d: Domain<S, E>, h: History<S, E>, s: S, key: Key)
    requires WellFormed(h) && d.snapshotId(s) == h.id && !Less(SnapshotKey(d, h.id, s), key)
    ensures Below(ApplySnapshot(d, h, s).checkpoints, key) == Below(h.checkpoints, key)
  {
    hide Rebuild, Below, After, Sorted, ApplySnapshot, Has, Rank;
    var sk, m := SnapshotKey(d, h.id, s), ApplySnapshot(d, h, s).checkpoints;
    var low, rest := Below(h.checkpoints, sk), Rebuild(d, s, After(h.events, Excluded(sk)), h.interval);
    InstalledParts(d, h, s);
    SplitAtEntry(low, Entry(sk, s), rest);
    BelowBelow(m, key, sk);
    BelowBelow(h.checkpoints, key, sk);
  }

  /** A newest event at or before the snapshot, on a history whose last checkpoint is that snapshot. */
  lemma AppendBehind<S, E>(
      d: Domain<S, E>, base: S, low: seq<Entry<S>>, events: seq<Entry<E>>, sk: Key, ek: Key, s: S, k: nat)
    requires k > 0 && Sorted(events) && Sorted(low) && Sorted(low + [Entry(sk, s)])
    requires After(events, Excluded(sk)) == [] && !Less(sk, ek)
    ensures AppendCheckpoint(d, base, low + [Entry(sk, s)], events, ek, k)
         == if ek == sk then low + [Entry(sk, s)] else Insert(low, ek, s) + [Entry(sk, s)]
  {
    hide Rank, Cut, Sorted;
    var m := low + [Entry(sk, s)];
    assert m[|low|] == Entry(sk, s) && m[..|low|] == low;
    if ek == sk {
      InsertedAlready(m, sk, s);
    } else {
      InsertBefore(low, Entry(sk, s), ek, s);
    }
  }

  lemma AppendKeepsOthers<S, E>(
      d: Domain<S, E>, base: S, m: seq<Entry<S>>, events: seq<Entry<E>>, ek: Key, sk: Key, v: S, k: nat)
    requires k > 0 && Sorted(m) && Sorted(events) && !Less(sk, ek)
    ensures var r := AppendCheckpoint(d, base, m, events, ek, k);
      && (ek == sk ==> Below(r, sk) == Below(m, sk))
      && (ek != sk ==> Insert(Below(r, sk), ek, v) == Insert(Below(m, sk), ek, v))
      && (ek != sk ==> (Entry(ek, v) in Below(r, sk) <==> Entry(ek, v) in r))
  {
    hide Rank, Cut, Fold, Multiple, Sorted, Below, Insert;
    var a := Latest(base, m);
    var x := Fold(d, a.state, After(events, a.bound));
    InsertBelow(m, ek, x);
    if ek != sk {
      InBelow(AppendCheckpoint(d, base, m, events, ek, k), sk, Entry(ek, v));
      InsertAndCut(m, ek, x, sk);
      InsertTwice(Below(m, sk), ek, x, v);
    }
  }

  lemma SnapshotThenNewest<S, E>(d: Domain<S, E>, h: History<S, E>, s: S, e: E)
    requires WellFormed(h) && d.snapshotId(s) == h.id && !Has(h.events, KeyOf(d, e))
    requires From(h.events, KeyOf(d, e)) == [] && !Less(SnapshotKey(d, h.id, s), KeyOf(d, e))
    ensures var sk, ek := SnapshotKey(d, h.id, s), KeyOf(d, e);
      var low := Below(h.checkpoints, sk);
      ApplyEvent(d, ApplySnapshot(d, h, s), e).checkpoints
      == (if ek == sk then low else Insert(low, ek, s)) + [Entry(sk, s)]
  {
    hide Rank, Cut, Insert, Sorted, Has, IsLatest, AppendCheckpoint, After, Below, From, Rebuild;
    var sk, ek := SnapshotKey(d, h.id, s), KeyOf(d, e);
    var events, low := Insert(h.events, ek, e), Below(h.checkpoints, sk);
    NothingFrom(h.events, ek);
    InstallOnNothing(d, h, s);
    LatestMeansEnd(h.events, ek, e);
    InsertAtEnd(h.events, ek, e);
    NoneAfterLast(events, sk);
    assert Sorted(Overridden(h.checkpoints, sk, s));
    AppendBehind(d, h.base, low, events, sk, ek, s, h.interval);
  }

  /** With no event after it, a snapshot is the last checkpoint. */
  lemma InstallOnNothing<S, E>(d: Domain<S, E>, h: History<S, E>, s: S)
    requires WellFormed(h) && d.snapshotId(s) == h.id
    requires h.events != [] ==> !Less(SnapshotKey(d, h.id, s), h.events[|h.events| - 1].key)
    ensures var sk := SnapshotKey(d, h.id, s);
      ApplySnapshot(d, h, s).checkpoints
      == Overridden(h.checkpoints, sk, s) == Below(h.checkpoints, sk) + [Entry(sk, s)]
  {
    hide Rebuild, Below, After, From, Sorted, ApplySnapshot, Has;
    var sk := SnapshotKey(d, h.id, s);
    InstalledParts(d, h, s);
    NoneAfterLast(h.events, sk);
    RebuildOfNothing(d, s, h.interval);
  }

  lemma RebuildOfNothing<S, E>(d: Domain<S, E>, s: S, k: nat)
    requires k > 0
    ensures Rebuild<S, E>(d, s, [], k) == []
  {
  }

  lemma NewestThenSnapshot<S, E>(d: Domain<S, E>, h: History<S, E>, s: S, e: E)
    requires WellFormed(h) && d.snapshotId(s) == h.id && !Has(h.events, KeyOf(d, e))
    requires From(h.events, KeyOf(d, e)) == [] && !Less(SnapshotKey(d, h.id, s), KeyOf(d, e))
    ensures var sk, ek, h1 := SnapshotKey(d, h.id, s), KeyOf(d, e), ApplyEvent(d, h, e);
      && h1.checkpoints == AppendCheckpoint(d, h.base, h.checkpoints, Insert(h.events, ek, e), ek, h.interval)
      && ApplySnapshot(d, h1, s).checkpoints == Below(h1.checkpoints, sk) + [Entry(sk, s)]
  {
    hide Rank, Cut, Insert, Sorted, Has, IsLatest, AppendCheckpoint, After, Below, From, ApplySnapshot;
    var ek, h1 := KeyOf(d, e), ApplyEvent(d, h, e);
    LatestMeansEnd(h.events, ek, e);
    InsertAtEnd(h.events, ek, e);
    InstallOnNothing(d, h1, s);
  }

  /** A newest event at or before the snapshot: it plants a copy of a snapshot that was there first. */
  lemma NewestEventCommutes<S, E>(d: Domain<S, E>, h: History<S, E>, s: S, e: E)
    requires WellFormed(h) && d.snapshotId(s) == h.id && !Has(h.events, KeyOf(d, e))
    requires From(h.events, KeyOf(d, e)) == [] && !Less(SnapshotKey(d, h.id, s), KeyOf(d, e))
    ensures var sk, ek, m := SnapshotKey(d, h.id, s), KeyOf(d, e), ApplyEvent(d, h, e).checkpoints;
      ApplyEvent(d, ApplySnapshot(d, h, s), e).checkpoints == ApplySnapshot(d, ApplyEvent(d, h, e), s).checkpoints
      <==> ek == sk || Entry(ek, s) in m
  {
    hide Rank, Cut, Insert, Sorted, Has, IsLatest, AppendCheckpoint, After, Below, From, ApplySnapshot, ApplyEvent;
    var sk, ek, m := SnapshotKey(d, h.id, s), KeyOf(d, e), ApplyEvent(d, h, e).checkpoints;
    SnapshotThenNewest(d, h, s, e);
    NewestThenSnapshot(d, h, s, e);
    AppendKeepsOthers(d, h.base, h.checkpoints, Insert(h.events, ek, e), ek, sk, s, h.interval);
    if ek != sk {
      InsertedAlready(Below(m, sk), ek, s);
      SameFront(Insert(Below(h.checkpoints, sk), ek, s), Below(m, sk), Entry(sk, s));
    }
  }

  /** What lies below an installed snapshot is not touched. */
  lemma SnapshotLeavesBelow<S, E>(d: Domain<S, E>, h: History<S, E>, s: S)
    requires WellFormed(h) && d.snapshotId(s) == h.id
    ensures var sk := SnapshotKey(d, h.id, s);
      Below(ApplySnapshot(d, h, s).checkpoints, sk) == Below(h.checkpoints, sk)
  {
    hide Less;
    BelowOverridden(d, h, s, SnapshotKey(d, h.id, s)) by { NotLess(SnapshotKey(d, h.id, s)); }
  }

  lemma NotLess(key: Key)
    ensures !Less(key, key)
  {
  }

  /** An event above a snapshot: both orders keep what lies below the snapshot and rebuild the rest from it. */
  lemma EventAboveCommutes<S, E>(d: Domain<S, E>, h: History<S, E>, s: S, e: E)
    requires WellFormed(h) && Spaced(h.events, h.checkpoints, h.interval)
    requires d.snapshotId(s) == h.id && Less(SnapshotKey(d, h.id, s), KeyOf(d, e))
    ensures ApplyEvent(d, ApplySnapshot(d, h, s), e).checkpoints == ApplySnapshot(d, ApplyEvent(d, h, e), s).checkpoints
  {
    hide *;
    var sk := SnapshotKey(d, h.id, s);
    var hs, he := ApplySnapshot(d, h, s), ApplyEvent(d, h, e);
    var hse, hes := ApplyEvent(d, hs, e), ApplySnapshot(d, he, s);
    SameFields(d, h, s, e);
    AboveSame(d, h, s, e);
    SnapshotSpaced(d, h, s);
    EventLeavesFront(d, hs, e, sk);
    EventLeavesFront(d, h, e, sk);
    SnapshotLeavesBelow(d, h, s);
    SnapshotLeavesBelow(d, he, s);
    InOrder(hse);
    InOrder(hes);
    BelowFrom(hse.checkpoints, sk);
    BelowFrom(hes.checkpoints, sk);
  }

  /** Neither operation touches the other fields, and the events do not depend on the snapshot. */
  lemma SameFields<S, E>(d: Domain<S, E>, h: History<S, E>, s: S, e: E)
    requires WellFormed(h)
    ensures var hs, he := ApplySnapshot(d, h, s), ApplyEvent(d, h, e);
      && WellFormed(hs) && WellFormed(he) && hs.id == he.id == h.id && hs.interval == he.interval == h.interval
      && ApplyEvent(d, hs, e).(checkpoints := []) == ApplySnapshot(d, he, s).(checkpoints := [])
  {
    hide CheckpointsAfter, EventsAfter, Resume, Sorted;
  }

  lemma EventLeavesFront<S, E>(d: Domain<S, E>, h: History<S, E>, e: E, key: Key)
    requires WellFormed(h) && Spaced(h.events, h.checkpoints, h.interval) && Less(key, KeyOf(d, e))
    ensures Below(ApplyEvent(d, h, e).checkpoints, key) == Below(h.checkpoints, key)
  {
    hide Spaced, ApplyEvent, Below, UpTo, After, Rank, Cut;
    EventLeavesBelow(d, h, e, key);
    UpToEnds(h.checkpoints, key);
    UpToEnds(ApplyEvent(d, h, e).checkpoints, key);
  }

  /** After an event above it, the snapshot is still the origin of everything from it on. */
  lemma UpperAfterEvent<S, E>(d: Domain<S, E>, h: History<S, E>, key: Key, s: S, e: E)
    requires WellFormed(h) && Less(key, KeyOf(d, e))
    requires From(h.checkpoints, key) != [] && From(h.checkpoints, key)[0] == Entry(key, s)
    requires Represents(d, Upper(h, key), Overriding(h, key, s))
    ensures Represents(d, Upper(ApplyEvent(d, h, e), key), Overriding(ApplyEvent(d, h, e), key, s))
  {
    hide Chain, Record, Sorted, From, After, EventsAfter, CheckpointsAfter, Has, Safe, Overwrites;
    var u, t := Upper(h, key), Overriding(h, key, s);
    EventActsAbove(d, h, key, s, e);
    assert forall a | a in t.auths :: Less(a.key, KeyOf(d, e));
    EventIsSafe(d, u, t, e);
    EventRefines(d, u, t, e);
    assert Record(d, t, e) == Overriding(ApplyEvent(d, h, e), key, s);
  }

  /** From the snapshot on both orders leave the chain of the later events over the snapshot. */
  lemma AboveSame<S, E>(d: Domain<S, E>, h: History<S, E>, s: S, e: E)
    requires WellFormed(h) && d.snapshotId(s) == h.id && Less(SnapshotKey(d, h.id, s), KeyOf(d, e))
    ensures var sk := SnapshotKey(d, h.id, s);
      From(ApplyEvent(d, ApplySnapshot(d, h, s), e).checkpoints, sk)
      == From(ApplySnapshot(d, ApplyEvent(d, h, e), s).checkpoints, sk)
  {
    hide *;
    var sk := SnapshotKey(d, h.id, s);
    var hs, he := ApplySnapshot(d, h, s), ApplyEvent(d, h, e);
    var hse, hes := ApplyEvent(d, hs, e), ApplySnapshot(d, he, s);
    SameFields(d, h, s, e);
    SnapshotFirst(d, h, s);
    SnapshotRules(d, h, s);
    SnapshotRules(d, he, s);
    EventActsAbove(d, hs, sk, s, e);
    UpperAfterEvent(d, hs, sk, s, e);
    UpperParts(d, hse, sk, s);
    UpperParts(d, hes, sk, s);
  }

  lemma InOrder<S, E>(h: History<S, E>)
    requires WellFormed(h)
    ensures Sorted(h.events) && Sorted(h.checkpoints) && h.interval > 0
  {
  }

  lemma OtherEntity<S, E>(d: Domain<S, E>, h: History<S, E>, s: S)
    requires WellFormed(h) && d.snapshotId(s) != h.id
    ensures ApplySnapshot(d, h, s) == h
  {
  }

  lemma DuplicateKeeps<S, E>(d: Domain<S, E>, h: History<S, E>, e: E)
    requires WellFormed(h) && Has(h.events, KeyOf(d, e))
    ensures ApplyEvent(d, h, e) == h
  {
    HasMeansSome(h.events, KeyOf(d, e));
  }

  lemma SnapshotKeepsEvents<S, E>(d: Domain<S, E>, h: History<S, E>, s: S)
    requires WellFormed(h)
    ensures ApplySnapshot(d, h, s).events == h.events
  {
  }

  /**
   * The coincidence that hides the order. A late event takes the snapshot out, but the rebuilding after it
   * leaves the same state at the snapshot's key; or a latest event plants a copy of the snapshot where the
   * same state is, or would be put, anyway. All of it is read off the state before.
   */
  ghost predicate Coincides<S, E>(d: Domain<S, E>, h: History<S, E>, s: S, e: E)
    requires WellFormed(h)
  {
    var sk, ek := SnapshotKey(d, h.id, s), KeyOf(d, e);
    var events := Insert(h.events, ek, e);
    if From(h.events, ek) == [] then
      var a := Latest(h.base, h.checkpoints);
      var tail := After(events, a.bound);
      if |tail| % h.interval == 0 then Fold(d, a.state, tail) == s else Entry(ek, s) in h.checkpoints
    else
      var a := Latest(h.base, Below(h.checkpoints, ek));
      Lands(d, a.state, After(events, a.bound), h.interval, Entry(sk, s))
  }

  lemma LateCoincidence<S, E>(d: Domain<S, E>, h: History<S, E>, s: S, e: E)
    requires WellFormed(h) && !Has(h.events, KeyOf(d, e)) && From(h.events, KeyOf(d, e)) != []
    requires !Less(SnapshotKey(d, h.id, s), KeyOf(d, e))
    ensures Coincides(d, h, s, e) <==> Entry(SnapshotKey(d, h.id, s), s) in ApplyEvent(d, h, e).checkpoints
  {
    hide Rank, Cut, Insert, Rebuild, Sorted, Has, IsLatest, Lands, Below, After, From;
    var ek := KeyOf(d, e);
    var events, keep := Insert(h.events, ek, e), Below(h.checkpoints, ek);
    LatestMeansEnd(h.events, ek, e);
    BelowLess(h.checkpoints, ek);
    var a := Latest(h.base, keep);
    RebuiltIsLanding(d, a.state, After(events, a.bound), h.interval, Entry(SnapshotKey(d, h.id, s), s));
  }

  lemma NewestCoincidence<S, E>(d: Domain<S, E>, h: History<S, E>, s: S, e: E)
    requires WellFormed(h) && !Has(h.events, KeyOf(d, e)) && From(h.events, KeyOf(d, e)) == []
    ensures Coincides(d, h, s, e) <==> Entry(KeyOf(d, e), s) in ApplyEvent(d, h, e).checkpoints
  {
    hide Rank, Cut, Insert, Sorted, Has, IsLatest, Lands, Below, After, From, Fold, Multiple;
    var ek := KeyOf(d, e);
    LatestMeansEnd(h.events, ek, e);
    var a := Latest(h.base, h.checkpoints);
    var tail := After(Insert(h.events, ek, e), a.bound);
    MultipleIsMod(|tail|, h.interval);
    InsertedValue(h.checkpoints, ek, Fold(d, a.state, tail), s);
  }

  /**
   * An authoritative snapshot and an event may arrive in either order, with the same final state, exactly
   * when the snapshot is of another entity, the event is a duplicate, the event is keyed above the snapshot,
   * or it is the latest event and keyed at the snapshot; and otherwise only by coincidence of content.
   */
  lemma SnapshotEventCommute<S, E>(d: Domain<S, E>, h: History<S, E>, s: S, e: E)
    requires WellFormed(h) && Spaced(h.events, h.checkpoints, h.interval)
    ensures var sk, ek := SnapshotKey(d, h.id, s), KeyOf(d, e);
      ApplyEvent(d, ApplySnapshot(d, h, s), e) == ApplySnapshot(d, ApplyEvent(d, h, e), s)
      <==> (d.snapshotId(s) != h.id || Has(h.events, ek) || Less(sk, ek)
            || (From(h.events, ek) == [] && ek == sk) || Coincides(d, h, s, e))
  {
    hide *;
    InOrder(h);
    SameFields(d, h, s, e);
    if d.snapshotId(s) != h.id {
      OtherEntity(d, h, s);
      OtherEntity(d, ApplyEvent(d, h, e), s);
    } else if Has(h.events, KeyOf(d, e)) {
      DuplicateKeeps(d, h, e);
      SnapshotKeepsEvents(d, h, s);
      DuplicateKeeps(d, ApplySnapshot(d, h, s), e);
    } else if Less(SnapshotKey(d, h.id, s), KeyOf(d, e)) {
      EventAboveCommutes(d, h, s, e);
    } else if From(h.events, KeyOf(d, e)) == [] {
      NewestEventCommutes(d, h, s, e);
      NewestCoincidence(d, h, s, e);
    } else {
      LateEventCommutes(d, h, s, e);
      LateCoincidence(d, h, s, e);
    }
  }

  /**
   * A late event at or before a snapshot's key undoes the snapshot without a trace, where the other
   * order keeps it in force: the two differ unless an event is stored at the snapshot's own key.
   */
  lemma LateEventUndoes<S, E>(d: Domain<S, E>, h: History<S, E>, s: S, e: E)
    requires WellFormed(h) && d.snapshotId(s) == h.id && !Has(h.events, KeyOf(d, e))
    requires From(h.events, KeyOf(d, e)) != [] && !Less(SnapshotKey(d, h.id, s), KeyOf(d, e))
    ensures ApplyEvent(d, ApplySnapshot(d, h, s), e) == ApplyEvent(d, h, e)
    ensures Entry(SnapshotKey(d, h.id, s), s) in ApplySnapshot(d, ApplyEvent(d, h, e), s).checkpoints
    ensures !Has(ApplyEvent(d, h, e).events, SnapshotKey(d, h.id, s)) ==>
      Entry(SnapshotKey(d, h.id, s), s) !in ApplyEvent(d, h, e).checkpoints
  {
    hide ApplyEvent, ApplySnapshot, Sorted, From, Has;
    LateEventCommutes(d, h, s, e);
    SameFields(d, h, s, e);
    LateFields(d, h, s, e);
    SnapshotPresent(d, ApplyEvent(d, h, e), s);
    if Entry(SnapshotKey(d, h.id, s), s) in ApplyEvent(d, h, e).checkpoints {
      LateCheckpointKeys(d, h, e, Entry(SnapshotKey(d, h.id, s), s));
    }
  }

  lemma LateFields<S, E>(d: Domain<S, E>, h: History<S, E>, s: S, e: E)
    requires WellFormed(h)
    ensures ApplyEvent(d, ApplySnapshot(d, h, s), e).(checkpoints := []) == ApplyEvent(d, h, e).(checkpoints := [])
  {
    hide CheckpointsAfter, EventsAfter, Resume, Sorted;
  }

  lemma SnapshotPresent<S, E>(d: Domain<S, E>, h: History<S, E>, s: S)
    requires WellFormed(h) && d.snapshotId(s) == h.id
    ensures Entry(SnapshotKey(d, h.id, s), s) in ApplySnapshot(d, h, s).checkpoints
  {
    hide Rebuild, Below, After, Sorted, ApplySnapshot;
    InstalledParts(d, h, s);
    var low := Below(h.checkpoints, SnapshotKey(d, h.id, s));
    assert ApplySnapshot(d, h, s).checkpoints[|low|] == Entry(SnapshotKey(d, h.id, s), s);
  }

  /** After a late event every checkpoint at or after its key is keyed by an event. */
  lemma LateCheckpointKeys<S, E>(d: Domain<S, E>, h: History<S, E>, e: E, c: Entry<S>)
    requires WellFormed(h) && !Has(h.events, KeyOf(d, e)) && From(h.events, KeyOf(d, e)) != []
    requires c in ApplyEvent(d, h, e).checkpoints && !Less(c.key, KeyOf(d, e))
    ensures Has(ApplyEvent(d, h, e).events, c.key)
  {
    hide Rank, Cut, Insert, Rebuild, Sorted, Has, IsLatest, Resume;
    var ek := KeyOf(d, e);
    LatestMeansEnd(h.events, ek, e);
    ResumeContents(d, h.base, Below(h.checkpoints, ek), Insert(h.events, ek, e), h.interval, c);
    BelowLess(h.checkpoints, ek);
  }

  /** A snapshot may be moved past any run of events keyed above it. */
  lemma {:induction false} SnapshotPastEvents<S, E>(d: Domain<S, E>, h: History<S, E>, s: S, ops: seq<Op<S, E>>)
    requires WellFormed(h) && Spaced(h.events, h.checkpoints, h.interval) && OnlyEvents(ops)
    requires d.snapshotId(s) == h.id ==> AllAbove(d, [Entry(SnapshotKey(d, h.id, s), s)], ops)
    ensures RunHistory(d, ApplySnapshot(d, h, s), ops) == ApplySnapshot(d, RunHistory(d, h, ops), s)
  {
    hide ApplyEvent, ApplySnapshot, Spaced, Sorted, Has, From;
    if ops != [] {
      var before, last := ops[..|ops| - 1], ops[|ops| - 1];
      assert last in ops && Entry(SnapshotKey(d, h.id, s), s) in [Entry(SnapshotKey(d, h.id, s), s)];
      SnapshotPastEvents(d, h, s, before);
      RunSpaced(d, h, before);
      RunKeepsInterval(d, h, before);
      SnapshotEventCommute(d, RunHistory(d, h, before), s, last.event);
    }
  }

  function EventsOf<S, E>(ops: seq<Op<S, E>>): (r: seq<Op<S, E>>)
    ensures forall op | op in r :: op in ops && op.EventOp?
    ensures forall op | op in ops && op.EventOp? :: op in r
  {
    if ops == [] then [] else
      var before, last := EventsOf(ops[..|ops| - 1]), ops[|ops| - 1];
      if last.EventOp? then before + [last] else before
  }

  function SnapshotsOf<S, E>(ops: seq<Op<S, E>>): (r: seq<Op<S, E>>)
    ensures forall op | op in r :: op in ops && op.SnapshotOp?
    ensures forall op | op in ops && op.SnapshotOp? :: op in r
  {
    if ops == [] then [] else
      var before, last := SnapshotsOf(ops[..|ops| - 1]), ops[|ops| - 1];
      if last.SnapshotOp? then before + [last] else before
  }

  /** An event that arrives before a snapshot of the entity is keyed above it. */
  ghost predicate EarlyEventsAbove<S, E>(d: Domain<S, E>, id: nat, ops: seq<Op<S, E>>) {
    forall i, j | 0 <= i < j < |ops| && ops[i].EventOp? && ops[j].SnapshotOp? ::
      d.snapshotId(ops[j].snapshot) == id ==> Less(SnapshotKey(d, id, ops[j].snapshot), KeyOf(d, ops[i].event))
  }

  /** Such a run is the run of its snapshots followed by the run of its events. */
  lemma {:induction false} SnapshotsFirst<S, E>(d: Domain<S, E>, h: History<S, E>, ops: seq<Op<S, E>>)
    requires WellFormed(h) && Spaced(h.events, h.checkpoints, h.interval)
    requires EarlyEventsAbove(d, h.id, ops) && forall op | op in ops :: !op.AdvanceOp?
    ensures RunHistory(d, h, ops) == RunHistory(d, RunHistory(d, h, SnapshotsOf(ops)), EventsOf(ops))
  {
    hide ApplyEvent, ApplySnapshot, Spaced, Sorted;
    if ops != [] {
      var before, last := ops[..|ops| - 1], ops[|ops| - 1];
      assert last in ops;
      SnapshotsFirst(d, h, before);
      var hs, events := RunHistory(d, h, SnapshotsOf(before)), EventsOf(before);
      match last
      case EventOp(e) =>
        RunSnoc(d, hs, events, last);
      case SnapshotOp(s) =>
        RunSnoc(d, h, SnapshotsOf(before), last);
        RunSpaced(d, h, SnapshotsOf(before));
        RunKeepsInterval(d, h, SnapshotsOf(before));
        PrecedingAbove(d, h.id, ops);
        SnapshotPastEvents(d, hs, s, events);
    }
  }

  lemma PrecedingAbove<S, E>(d: Domain<S, E>, id: nat, ops: seq<Op<S, E>>)
    requires EarlyEventsAbove(d, id, ops) && ops != [] && ops[|ops| - 1].SnapshotOp?
    ensures var s := ops[|ops| - 1].snapshot;
      d.snapshotId(s) == id ==> AllAbove(d, [Entry(SnapshotKey(d, id, s), s)], EventsOf(ops[..|ops| - 1]))
  {
    var n := |ops| - 1;
    forall op | op in EventsOf(ops[..n])
      ensures exists i :: 0 <= i < n && ops[i] == op
    {
      var i :| 0 <= i < n && ops[..n][i] == op;
      assert ops[i] == op;
    }
  }

  /** Every event of the run is keyed above every snapshot of the entity in it. */
  ghost predicate EventsAbove<S, E>(d: Domain<S, E>, id: nat, ops: seq<Op<S, E>>) {
    forall x, y | x in ops && y in ops && x.EventOp? && y.SnapshotOp? && d.snapshotId(y.snapshot) == id ::
      Less(SnapshotKey(d, id, y.snapshot), KeyOf(d, x.event))
  }

  /** A snapshot in force was in force before or was installed by the run, keyed by its own time. */
  lemma {:induction false} InstalledByRun<S, E>(d: Domain<S, E>, t: Timeline<S, E>, ops: seq<Op<S, E>>)
    requires Ordered(t)
    ensures Run(d, t, ops).id == t.id
    ensures forall a | a in Run(d, t, ops).auths ::
      a in t.auths || (Op<S, E>.SnapshotOp(a.value) in ops && d.snapshotId(a.value) == t.id
                       && a.key == SnapshotKey(d, t.id, a.value))
  {
    hide Rank, Sorted, Insert, Has, IsLatest, StateBefore;
    if ops != [] {
      var before, last := ops[..|ops| - 1], ops[|ops| - 1];
      assert last in ops;
      InstalledByRun(d, t, before);
    }
  }

  /** Runs of events above the snapshots, in any interleaving, keep the cache faithful and the ledger exact. */
  lemma {:induction false} MixedRun<S, E>(d: Domain<S, E>, h: History<S, E>, t: Timeline<S, E>, ops: seq<Op<S, E>>)
    requires Represents(d, h, t) && t.auths == [] && EventsAbove(d, t.id, ops)
    requires forall op | op in ops :: !op.AdvanceOp?
    ensures SafeRun(d, h, ops) && NeverOverwrites(d, h, ops)
    ensures Represents(d, RunHistory(d, h, ops), Run(d, t, ops))
  {
    hide Chain, Sorted, Do, Perform, Overwrites;
    if ops != [] {
      var before, last := ops[..|ops| - 1], ops[|ops| - 1];
      assert last in ops;
      MixedRun(d, h, t, before);
      InstalledByRun(d, t, before);
      var h', t' := RunHistory(d, h, before), Run(d, t, before);
      if last.EventOp? {
        EventIsSafe(d, h', t', last.event);
      }
      DoRefines(d, h', t', last);
    }
  }

  lemma {:induction false} SnapshotsStoreNoEvent<S, E>(d: Domain<S, E>, t: Timeline<S, E>, ops: seq<Op<S, E>>)
    requires Ordered(t) && forall op | op in ops :: op.SnapshotOp?
    ensures Run(d, t, ops).events == t.events && Run(d, t, ops).id == t.id
  {
    hide Sorted, Rank;
    if ops != [] {
      assert ops[|ops| - 1] in ops;
      SnapshotsStoreNoEvent(d, t, ops[..|ops| - 1]);
    }
  }

  /** A mixed run from a fresh history: its snapshots, then its events, with an exact ledger. */
  lemma MixedParts<S, E>(d: Domain<S, E>, s: S, now: int, horizon: int, k: nat, ops: seq<Op<S, E>>)
    requires k > 0 && EventsAbove(d, d.snapshotId(s), ops) && forall op | op in ops :: !op.AdvanceOp?
    ensures var h, t, first := New<S, E>(d, s, now, horizon, k), Start<S, E>(d, s, now, horizon), SnapshotsOf(ops);
      && Represents(d, RunHistory(d, h, first), Run(d, t, first)) && Run(d, t, first).events == []
      && AllAbove(d, Run(d, t, first).auths, EventsOf(ops)) && OnlyEvents(EventsOf(ops))
      && RunHistory(d, h, ops) == RunHistory(d, RunHistory(d, h, first), EventsOf(ops))
      && RunDelta(d, h, ops) == Footprint(d, RunHistory(d, h, ops)) - Footprint(d, h)
  {
    hide New, Start, Represents, RunHistory, Run, Spaced, Sorted, RunDelta, Footprint, EventsOf, SnapshotsOf, SafeRun;
    hide NeverOverwrites;
    var h, t, first := New<S, E>(d, s, now, horizon, k), Start<S, E>(d, s, now, horizon), SnapshotsOf(ops);
    NewRepresents<S, E>(d, s, now, horizon, k);
    NewFields<S, E>(d, s, now, horizon, k);
    FreshSpaced<S, E>(d, s, now, horizon, k);
    SnapshotsFirst(d, h, ops);
    MixedRun(d, h, t, first);
    SnapshotsStoreNoEvent(d, t, first);
    InstalledByRun(d, t, first);
    MixedRun(d, h, t, ops);
    LedgerExact(d, h, ops);
  }

  lemma EventParts<S, E>(d: Domain<S, E>, id: nat, xs: seq<Op<S, E>>, ys: seq<Op<S, E>>)
    requires EventsAbove(d, id, xs) && KeysDetermine(d, xs) && forall op :: op in xs <==> op in ys
    ensures EventsAbove(d, id, ys) && KeysDetermine(d, EventsOf(xs))
    ensures forall op :: op in EventsOf(xs) <==> op in EventsOf(ys)
  {
    hide EventsOf;
  }

  /**
   * Order independence with snapshots: two arrival sequences of the same snapshots in the same order and
   * of the same events, permuted, duplicated and interleaved with the snapshots at will, end in the same
   * history and charge the same bytes when every event is keyed above every snapshot.
   */
  lemma MixedOrderIndependent<S, E>(
      d: Domain<S, E>, s: S, now: int, horizon: int, k: nat, xs: seq<Op<S, E>>, ys: seq<Op<S, E>>)
    requires k > 0 && EventsAbove(d, d.snapshotId(s), xs) && KeysDetermine(d, xs)
    requires (forall op | op in xs :: !op.AdvanceOp?) && forall op :: op in xs <==> op in ys
    requires SnapshotsOf(xs) == SnapshotsOf(ys)
    ensures var h := New<S, E>(d, s, now, horizon, k);
      && RunHistory(d, h, xs) == RunHistory(d, h, ys)
      && RunDelta(d, h, xs) == RunDelta(d, h, ys)
  {
    hide *;
    var h, t := New<S, E>(d, s, now, horizon, k), Start<S, E>(d, s, now, horizon);
    EventParts(d, d.snapshotId(s), xs, ys);
    MixedParts(d, s, now, horizon, k, xs);
    MixedParts(d, s, now, horizon, k, ys);
    var first := SnapshotsOf(xs);
    AnyEventOrder(d, RunHistory(d, h, first), Run(d, t, first), EventsOf(xs), EventsOf(ys));
  }

  /**
   * Snapshots do not commute with each other either. An older one that arrives late erases the newer one
   * and everything else above itself.
   */
  lemma OlderSnapshotErases<S, E>(d: Domain<S, E>, h: History<S, E>, newer: S, older: S)
    requires WellFormed(h) && d.snapshotId(newer) == h.id == d.snapshotId(older)
    requires !Less(SnapshotKey(d, h.id, newer), SnapshotKey(d, h.id, older))
    ensures ApplySnapshot(d, ApplySnapshot(d, h, newer), older) == ApplySnapshot(d, h, older)
  {
    hide Rebuild, Below, After, Sorted, Less;
    BelowOverridden(d, h, newer, SnapshotKey(d, h.id, older));
  }

  /**
   * Two snapshots of the entity may arrive in either order exactly when they are the same, or the later
   * one in time is the very state that replaying the stored events from the earlier one leaves at its key.
   */
  lemma SnapshotsCommute<S, E>(d: Domain<S, E>, h: History<S, E>, newer: S, older: S)
    requires WellFormed(h) && d.snapshotId(newer) == h.id == d.snapshotId(older)
    requires !Less(SnapshotKey(d, h.id, newer), SnapshotKey(d, h.id, older))
    ensures var nk, ok := SnapshotKey(d, h.id, newer), SnapshotKey(d, h.id, older);
      ApplySnapshot(d, ApplySnapshot(d, h, newer), older) == ApplySnapshot(d, ApplySnapshot(d, h, older), newer)
      <==> (newer == older
            || Lands(d, older, After(h.events, Excluded(ok)), h.interval, Entry(nk, newer)))
  {
    hide *;
    var nk, ok := SnapshotKey(d, h.id, newer), SnapshotKey(d, h.id, older);
    OlderSnapshotErases(d, h, newer, older);
    Trichotomy(nk, ok);
    if Less(ok, nk) {
      LaterSnapshotLands(d, h, newer, older);
    } else {
      SameKeySnapshots(d, h, newer, older);
    }
  }

  lemma LaterSnapshotLands<S, E>(d: Domain<S, E>, h: History<S, E>, newer: S, older: S)
    requires WellFormed(h) && d.snapshotId(newer) == h.id == d.snapshotId(older)
    requires Less(SnapshotKey(d, h.id, older), SnapshotKey(d, h.id, newer))
    ensures var ho := ApplySnapshot(d, h, older);
      ApplySnapshot(d, ho, newer) == ho
      <==> Lands(d, older, After(h.events, Excluded(SnapshotKey(d, h.id, older))), h.interval,
                 Entry(SnapshotKey(d, h.id, newer), newer))
    ensures newer != older
  {
    hide Rebuild, Below, After, Sorted, Lands;
    var nk, ok := SnapshotKey(d, h.id, newer), SnapshotKey(d, h.id, older);
    var keep, c := Overridden(h.checkpoints, ok, older), Entry(nk, newer);
    InstalledAlready(d, h.base, keep, h.events, h.interval, c);
    NotBelow(keep, c);
    RebuiltIsLanding(d, older, After(h.events, Excluded(ok)), h.interval, c);
  }

  lemma SameKeySnapshots<S, E>(d: Domain<S, E>, h: History<S, E>, newer: S, older: S)
    requires WellFormed(h) && d.snapshotId(newer) == h.id == d.snapshotId(older)
    requires SnapshotKey(d, h.id, newer) == SnapshotKey(d, h.id, older)
    ensures ApplySnapshot(d, h, older) == ApplySnapshot(d, ApplySnapshot(d, h, older), newer) <==> newer == older
    ensures !Lands(d, older, After(h.events, Excluded(SnapshotKey(d, h.id, older))), h.interval,
                   Entry(SnapshotKey(d, h.id, newer), newer))
  {
    hide Rebuild, Below, After, Sorted, ApplySnapshot, Rank;
    OlderSnapshotErases(d, h, older, newer) by { NotLess(SnapshotKey(d, h.id, newer)); }
    InstalledParts(d, h, newer);
    InstalledParts(d, h, older);
    var key := SnapshotKey(d, h.id, older);
    var n := |Below(h.checkpoints, key)|;
    assert ApplySnapshot(d, h, newer).checkpoints[n] == Entry(key, newer);
    assert ApplySnapshot(d, h, older).checkpoints[n] == Entry(key, older);
    NotAfterItself(h.events, key);
  }
}
